/** The model schema builder (`ModelMetaclass.__new__`, www/orm.py): from
    the ordered attributes of a class body to the table mapping and the
    four SQL templates, or to a definition-time error. */
module Schema {
  import opened Values
  import opened SqlText
  import opened Fields
  import Placeholders

  /** A class attribute: a field descriptor or any other value. */
  datatype Attr = FieldAttr(field: Field) | Plain(value: Value)

  /** The class namespace in iteration order. As in a dict, a key occurs
      once (`DistinctKeys`); the schema builder requires that. */
  type Attrs = seq<(string, Attr)>

  /** A dict never holds a key twice. */
  predicate DistinctKeys(attrs: Attrs) {
    forall i, j :: 0 <= i < j < |attrs| ==> attrs[i].0 != attrs[j].0
  }

  /** Names written in a class body are identifiers, hence non-empty. */
  predicate NamedAttrs(attrs: Attrs) {
    forall i :: 0 <= i < |attrs| ==> attrs[i].0 != ""
  }

  /** `attrs.get(k)`. */
  function Lookup(attrs: Attrs, k: string): (r: Option<Attr>)
    ensures r.Some? ==> exists i :: 0 <= i < |attrs| && attrs[i] == (k, r.value)
    ensures r.None? ==> forall i :: 0 <= i < |attrs| ==> attrs[i].0 != k
  {
    if attrs == [] then None
    else if attrs[|attrs| - 1].0 == k then Some(attrs[|attrs| - 1].1)
    else Lookup(attrs[..|attrs| - 1], k)
  }

  /** `attrs.get('__table__', None) or name`. Only a string `__table__` is
      modelled; any other value falls back to the class name. */
  function TableName(name: string, attrs: Attrs): (t: string)
    ensures t == name || (t != "" && Lookup(attrs, "__table__") == Some(Plain(StrV(t))))
    ensures Lookup(attrs, "__table__").Some? && Lookup(attrs, "__table__").value.Plain?
            && Truthy(Lookup(attrs, "__table__").value.value)
            && Lookup(attrs, "__table__").value.value.StrV?
            ==> t == Lookup(attrs, "__table__").value.value.s
  {
    match Lookup(attrs, "__table__")
    case Some(Plain(StrV(t))) => if t != "" then t else name
    case _ => name
  }

  datatype SchemaError = DuplicatePrimaryKey(key: string) | PrimaryKeyNotFound

  /** The text of the `RuntimeError` raised for each error. */
  function Message(e: SchemaError): string {
    match e
    case DuplicatePrimaryKey(k) => "Duplicate primary key for field: " + k
    case PrimaryKeyNotFound => "Primary key not found."
  }

  /** Python's `if primaryKey:`; an empty name is falsy. */
  predicate Recorded(pk: Option<string>) {
    pk.Some? && pk.value != ""
  }

  /** The state of the first loop of `__new__`: the `mappings` dict (with
      its insertion order in `keys`), the `fields` list and `primaryKey`. */
  datatype Scan = Scan(mappings: map<string, Field>, keys: seq<string>, fields: seq<string>, primaryKey: Option<string>)

  ghost predicate ScanInv(s: Scan) {
    (forall k :: k in s.mappings <==> k in s.keys) &&
    (forall f :: f in s.fields ==> f in s.mappings) &&
    (s.primaryKey.Some? ==> s.primaryKey.value in s.mappings)
  }

  /** One iteration of the first loop, on attribute `k` with value `a`. */
  function ScanStep(acc: Scan, k: string, a: Attr): (r: Result<Scan, SchemaError>)
    requires ScanInv(acc)
    ensures r.Ok? ==> ScanInv(r.value)
  {
    match a
    case Plain(_) => Ok(acc)
    case FieldAttr(f) =>
      var m := acc.mappings[k := f];
      var ks := if k in acc.mappings then acc.keys else acc.keys + [k];
      if f.primaryKey then
        if Recorded(acc.primaryKey) then Err(DuplicatePrimaryKey(k))
        else Ok(Scan(m, ks, acc.fields, Some(k)))
      else Ok(Scan(m, ks, acc.fields + [k], acc.primaryKey))
  }

  /** The first loop run over all of `attrs`. */
  function ScanAll(attrs: Attrs): (r: Result<Scan, SchemaError>)
    ensures r.Ok? ==> ScanInv(r.value)
  {
    if attrs == [] then Ok(Scan(map[], [], [], None))
    else
      match ScanAll(attrs[..|attrs| - 1])
      case Err(e) => Err(e)
      case Ok(acc) => ScanStep(acc, attrs[|attrs| - 1].0, attrs[|attrs| - 1].1)
  }

  /** What is left of the namespace once every key in `ks` is popped. */
  function WithoutKeys(attrs: Attrs, ks: set<string>): Attrs {
    if attrs == [] then []
    else WithoutKeys(attrs[..|attrs| - 1], ks) + (if attrs[|attrs| - 1].0 in ks then [] else [attrs[|attrs| - 1]])
  }

  /** The keys of a dict, given in insertion order. */
  function Elems(keys: seq<string>): set<string> {
    set x | x in keys
  }

  /** `'%s' % x` for the result of `create_args_string`. */
  function FormatArg(o: Option<string>): string {
    if o.None? then "None" else o.value
  }

  /** `__select__`. The column list is `escaped_fields`, whose formatting
      `'%s' % f` adds no backticks (defect kept on purpose), so the
      regular columns are unquoted. */
  function SelectTemplate(table: string, pk: string, fields: seq<string>): string {
    "select `" + pk + "`, " + Join(", ", fields) + " from `" + table + "`"
  }

  /** `__insert__`: regular columns unquoted, the primary key last, and the
      value list produced by `create_args_string(len(fields) + 1)`. */
  function InsertTemplate(table: string, pk: string, fields: seq<string>): string {
    "insert into `" + table + "` (" + Join(", ", fields) + ", `" + pk + "`) values ("
      + FormatArg(Placeholders.ArgsString(|fields| + 1)) + ")"
  }

  /** The `` `col`=? `` items of `__update__`, one per regular field. */
  function SetClauses(fields: seq<string>, mappings: map<string, Field>): (r: seq<string>)
    requires forall f :: f in fields ==> f in mappings
    ensures |r| == |fields|
    ensures forall i :: 0 <= i < |fields| ==> r[i] == "`" + ColumnName(mappings[fields[i]], fields[i]) + "`=?"
  {
    if fields == [] then []
    else ["`" + ColumnName(mappings[fields[0]], fields[0]) + "`=?"] + SetClauses(fields[1..], mappings)
  }

  /** `__update__`. */
  function UpdateTemplate(table: string, pk: string, fields: seq<string>, mappings: map<string, Field>): string
    requires forall f :: f in fields ==> f in mappings
  {
    "update `" + table + "` set " + Join(", ", SetClauses(fields, mappings)) + " where `" + pk + "`=?"
  }

  /** `__delete__`. */
  function DeleteTemplate(table: string, pk: string): string {
    "delete from `" + table + "` where `" + pk + "`=?"
  }

  /** The metadata recorded on a model class: `__table__`, `__mappings__`,
      `__primary_key__`, `__fields__` and the four templates. */
  datatype Schema = Schema(table: string, mappings: map<string, Field>, primaryKey: string, fields: seq<string>,
                           select: string, insert: string, update: string, delete: string)

  predicate WellFormed(s: Schema) {
    s.primaryKey in s.mappings &&
    (forall f :: f in s.fields ==> f in s.mappings) &&
    s.select == SelectTemplate(s.table, s.primaryKey, s.fields) &&
    s.insert == InsertTemplate(s.table, s.primaryKey, s.fields) &&
    s.update == UpdateTemplate(s.table, s.primaryKey, s.fields, s.mappings) &&
    s.delete == DeleteTemplate(s.table, s.primaryKey)
  }

  /** A class as `__new__` returns it: its namespace without the field
      attributes, and the schema when one was built (the base class `Model`
      gets none). The schema's entries take precedence over any namespace
      entry of the same key. */
  datatype ModelClass = ModelClass(name: string, attrs: Attrs, schema: Option<Schema>)

  /** `ModelMetaclass.__new__(cls, name, bases, attrs)` as a function. */
  function SchemaOf(name: string, attrs: Attrs): (r: Result<ModelClass, SchemaError>)
    requires DistinctKeys(attrs)
    ensures name == "Model" ==> r == Ok(ModelClass(name, attrs, None))
    ensures name != "Model" && r.Ok? ==>
              r.value.name == name && r.value.schema.Some? && WellFormed(r.value.schema.value)
              && r.value.schema.value.table == TableName(name, attrs)
  {
    if name == "Model" then Ok(ModelClass(name, attrs, None))
    else
      var table := TableName(name, attrs);
      match ScanAll(attrs)
      case Err(e) => Err(e)
      case Ok(s) =>
        if !Recorded(s.primaryKey) then Err(PrimaryKeyNotFound)
        else
          var pk := s.primaryKey.value;
          Ok(ModelClass(name, WithoutKeys(attrs, s.mappings.Keys),
                        Some(Schema(table, s.mappings, pk, s.fields,
                                    SelectTemplate(table, pk, s.fields),
                                    InsertTemplate(table, pk, s.fields),
                                    UpdateTemplate(table, pk, s.fields, s.mappings),
                                    DeleteTemplate(table, pk)))))
  }

  /** Once the scan has failed on a prefix, the rest of the attributes do
      not change the outcome. */
  lemma {:induction false} ScanStaysFailed(attrs: Attrs, n: nat)
    requires n <= |attrs| && ScanAll(attrs[..n]).Err?
    ensures ScanAll(attrs) == ScanAll(attrs[..n])
    decreases |attrs| - n
  {
    if n < |attrs| {
      var prefix := attrs[..|attrs| - 1];
      assert prefix[..n] == attrs[..n];
      ScanStaysFailed(prefix, n);
    } else {
      assert attrs[..n] == attrs;
    }
  }

  lemma {:induction false} WithoutNothing(attrs: Attrs)
    ensures WithoutKeys(attrs, {}) == attrs
  {
    if attrs != [] {
      WithoutNothing(attrs[..|attrs| - 1]);
      assert attrs == attrs[..|attrs| - 1] + [attrs[|attrs| - 1]];
    }
  }

  /** Popping keys one set after another pops their union. */
  lemma {:induction false} WithoutKeysTwice(attrs: Attrs, s: set<string>, t: set<string>)
    ensures WithoutKeys(WithoutKeys(attrs, s), t) == WithoutKeys(attrs, s + t)
  {
    if attrs != [] {
      var prefix := attrs[..|attrs| - 1];
      var last := attrs[|attrs| - 1];
      WithoutKeysTwice(prefix, s, t);
      var once := WithoutKeys(prefix, s);
      if last.0 in s {
        assert WithoutKeys(attrs, s) == once;
      } else {
        var w := once + [last];
        assert WithoutKeys(attrs, s) == w;
        assert w[..|w| - 1] == once && w[|w| - 1] == last;
      }
    }
  }

  /** The first loop of `__new__`: fill `mappings` and `fields` and record
      the primary key, raising on a second one. */
  method ScanAttributes(attrs: Attrs) returns (r: Result<Scan, SchemaError>)
    ensures r == ScanAll(attrs)
  {
    var mappings: map<string, Field> := map[];
    var keys: seq<string> := [];
    var fields: seq<string> := [];
    var primaryKey: Option<string> := None;
    var i := 0;
    while i < |attrs|
      invariant 0 <= i <= |attrs|
      invariant ScanAll(attrs[..i]) == Ok(Scan(mappings, keys, fields, primaryKey))
    {
      var (k, v) := attrs[i];
      assert attrs[..i + 1][..i] == attrs[..i];
      if v.FieldAttr? {
        if k !in mappings {
          keys := keys + [k];
        }
        mappings := mappings[k := v.field];
        if v.field.primaryKey {
          if Recorded(primaryKey) {
            ScanStaysFailed(attrs, i + 1);
            return Err(DuplicatePrimaryKey(k));
          }
          primaryKey := Some(k);
        } else {
          fields := fields + [k];
        }
      }
      i := i + 1;
    }
    assert attrs[..i] == attrs;
    return Ok(Scan(mappings, keys, fields, primaryKey));
  }

  /** The second loop of `__new__`: `attrs.pop(k)` for every mapped key. */
  method PopMapped(attrs: Attrs, keys: seq<string>) returns (rest: Attrs)
    ensures rest == WithoutKeys(attrs, Elems(keys))
  {
    rest := attrs;
    WithoutNothing(attrs);
    assert Elems(keys[..0]) == {};
    var j := 0;
    while j < |keys|
      invariant 0 <= j <= |keys|
      invariant rest == WithoutKeys(attrs, Elems(keys[..j]))
    {
      WithoutKeysTwice(attrs, Elems(keys[..j]), {keys[j]});
      assert keys[..j + 1] == keys[..j] + [keys[j]];
      assert Elems(keys[..j + 1]) == Elems(keys[..j]) + {keys[j]};
      rest := WithoutKeys(rest, {keys[j]});
      j := j + 1;
    }
    assert keys[..j] == keys;
  }

  /** `ModelMetaclass.__new__` as the source runs it: skip the base class,
      pick the table name, run the two loops, then format the templates. */
  method BuildSchema(name: string, attrs: Attrs) returns (r: Result<ModelClass, SchemaError>)
    requires DistinctKeys(attrs)
    ensures r == SchemaOf(name, attrs)
  {
    if name == "Model" {
      return Ok(ModelClass(name, attrs, None));
    }
    var table := TableName(name, attrs);
    var scan := ScanAttributes(attrs);
    if scan.Err? {
      return Err(scan.error);
    }
    var Scan(mappings, keys, fields, primaryKey) := scan.value;
    if !Recorded(primaryKey) {
      return Err(PrimaryKeyNotFound);
    }
    assert Elems(keys) == mappings.Keys;
    var rest := PopMapped(attrs, keys);
    var escaped := fields;
    var pk := primaryKey.value;
    var values := Placeholders.CreateArgsString(|escaped| + 1);
    var schema := Schema(table, mappings, pk, fields,
                         "select `" + pk + "`, " + Join(", ", escaped) + " from `" + table + "`",
                         "insert into `" + table + "` (" + Join(", ", escaped) + ", `" + pk + "`) values ("
                           + FormatArg(values) + ")",
                         UpdateTemplate(table, pk, fields, mappings),
                         "delete from `" + table + "` where `" + pk + "`=?");
    return Ok(ModelClass(name, rest, Some(schema)));
  }
}
