/** Model instances and the class-level query helpers (`Model`,
    www/orm.py). An instance is a mutable dict from attribute name to
    value; the database is an oracle the driver calls are handed to. */
module Model {
  import opened Values
  import opened SqlText
  import opened Fields
  import opened Schema
  import opened Driver

  datatype LookupError = AttributeError(message: string) | KeyError(key: string)

  /** `getattr(instance, key, None)` over the instance dict. */
  function Get(values: map<string, Value>, key: string): Value {
    if key in values then values[key] else NoneV
  }

  /** `getValueOrDefault(key)` as written, on the dict `values`: the result
      and the dict afterwards. The default is computed but assigned to the
      local `field` (defect kept on purpose), so what is returned, and
      stored when the field has a default, is the absent value `None`. A key
      that is neither set nor mapped raises `KeyError`. */
  function OrDefault(mappings: map<string, Field>, values: map<string, Value>, key: string)
    : (Result<Value, LookupError>, map<string, Value>)
  {
    var value := Get(values, key);
    if value != NoneV then (Ok(value), values)
    else if key !in mappings then (Err(KeyError(key)), values)
    else if mappings[key].default != NoneV then (Ok(value), values[key := value])
    else (Ok(value), values)
  }

  /** `getValue` of each key in turn. */
  function CurrentValues(values: map<string, Value>, keys: seq<string>): (r: seq<Value>)
    ensures |r| == |keys|
    ensures forall i :: 0 <= i < |keys| ==> r[i] == Get(values, keys[i])
  {
    if keys == [] then []
    else CurrentValues(values, keys[..|keys| - 1]) + [Get(values, keys[|keys| - 1])]
  }

  /** The keys whose values `save` and `update` send: the regular fields,
      then the primary key. */
  function RowKeys(s: Schema): seq<string> {
    s.fields + [s.primaryKey]
  }

  /** The dict after `getValueOrDefault` ran on each of `keys` in turn:
      a key is set to None when it is mapped, still unset and has a
      default. */
  function Filled(mappings: map<string, Field>, values: map<string, Value>, keys: seq<string>): map<string, Value> {
    if keys == [] then values
    else
      var before := Filled(mappings, values, keys[..|keys| - 1]);
      var k := keys[|keys| - 1];
      if k in mappings && mappings[k].default != NoneV && Get(values, k) == NoneV then before[k := NoneV]
      else before
  }

  /** Filling changes no value `getValue` reads, and adds exactly the
      mapped, unset keys that have a default. */
  lemma {:induction false} FilledSpec(mappings: map<string, Field>, values: map<string, Value>, keys: seq<string>)
    ensures forall x :: Get(Filled(mappings, values, keys), x) == Get(values, x)
    ensures forall x :: (x in Filled(mappings, values, keys)
                         <==> x in values || (x in keys && x in mappings && mappings[x].default != NoneV))
  {
    if keys != [] {
      var prefix := keys[..|keys| - 1];
      FilledSpec(mappings, values, prefix);
      assert keys == prefix + [keys[|keys| - 1]];
    }
  }

  /** The caller's `args` list, which `findAll` extends in place. */
  class ArgList {
    var items: seq<Value>

    constructor(items: seq<Value>)
      ensures this.items == items
    {
      this.items := items;
    }
  }

  datatype LimitError = InvalidLimit(limit: Value)

  /** `limit` is None, an int (a bool is an int in Python) or a 2-tuple. */
  predicate ValidLimit(limit: Value) {
    limit.NoneV? || limit.BoolV? || limit.IntV? || (limit.TupleV? && |limit.items| == 2)
  }

  /** The arguments a valid `limit` adds, in order. */
  function LimitArgs(limit: Value): seq<Value> {
    match limit
    case BoolV(_) => [limit]
    case IntV(_) => [limit]
    case TupleV(xs) => if |xs| == 2 then xs else []
    case _ => []
  }

  /** The placeholders a valid `limit` clause carries. */
  function LimitMarks(limit: Value): string {
    if limit.TupleV? then "?, ?" else "?"
  }

  /** The clause list `findAll` joins with single spaces: the SELECT
      template, then each optional clause in the fixed order where,
      order by, limit. */
  function FindAllClauses(select: string, where: Option<string>, orderBy: Option<string>, limit: Value): seq<string> {
    [select]
      + (if Given(where) then ["where", where.value] else [])
      + (if Given(orderBy) then ["order by", orderBy.value] else [])
      + (if limit.NoneV? then [] else ["limit", LimitMarks(limit)])
  }

  /** `findAll(where, args, orderBy=..., limit=...)`: grows the clause list
      and extends the caller's argument list in place, then selects. The
      resulting rows become the new instances' dicts (`cls(**r)`). */
  method FindAll(s: Schema, db: DriverCall -> seq<Row>, where: Option<string>, args: ArgList?,
                 orderBy: Option<string>, limit: Value)
    returns (r: Result<seq<Row>, LimitError>)
    modifies args
    ensures r.Ok? <==> ValidLimit(limit)
    ensures r.Err? ==> r.error == InvalidLimit(limit)
    ensures args != null ==> args.items == old(args.items) + LimitArgs(limit)
    ensures r.Ok? ==>
              r.value == db(Prepare(Join(" ", FindAllClauses(s.select, where, orderBy, limit)),
                                    Some((if args == null then [] else old(args.items)) + LimitArgs(limit))))
  {
    var sql := [s.select];
    if Given(where) {
      sql := sql + ["where", where.value];
    }
    ghost var clauses := [s.select] + (if Given(where) then ["where", where.value] else []);
    assert sql == clauses;
    var list: ArgList;
    if args == null {
      list := new ArgList([]);
    } else {
      list := args;
    }
    ghost var given := list.items;
    assert given == (if args == null then [] else old(args.items));
    if Given(orderBy) {
      sql := sql + ["order by", orderBy.value];
    }
    clauses := clauses + (if Given(orderBy) then ["order by", orderBy.value] else []);
    assert sql == clauses;
    if !limit.NoneV? {
      sql := sql + ["limit"];
      if limit.BoolV? || limit.IntV? {
        sql := sql + ["?"];
        list.items := list.items + [limit];
      } else if limit.TupleV? && |limit.items| == 2 {
        sql := sql + ["?, ?"];
        list.items := list.items + limit.items;
      } else {
        return Err(InvalidLimit(limit));
      }
      assert sql == clauses + ["limit", LimitMarks(limit)];
    }
    assert sql == FindAllClauses(s.select, where, orderBy, limit);
    assert list.items == given + LimitArgs(limit);
    var rows := Select(db, Join(" ", sql), Some(list.items), 0);
    return Ok(rows);
  }

  /** The statement `find` sends. */
  function FindSql(s: Schema): string {
    s.select + " where `" + s.primaryKey + "`=?"
  }

  /** `find(pk)`: the first row selected by primary key, or None when no
      row matches. */
  function Find(s: Schema, db: DriverCall -> seq<Row>, pk: Value): (r: Option<Row>)
    ensures r.None? <==> db(Prepare(FindSql(s), Some([pk]))) == []
    ensures r.Some? ==> r.value == db(Prepare(FindSql(s), Some([pk])))[0]
  {
    var rs := Select(db, FindSql(s), Some([pk]), 1);
    if |rs| == 0 then None else Some(rs[0])
  }

  /** The clause list `findNumber` joins. */
  function NumberClauses(s: Schema, selectField: string, where: Option<string>): seq<string> {
    ["select " + selectField + " _num_ from `" + s.table + "`"]
      + (if Given(where) then ["where", where.value] else [])
  }

  /** `findNumber(selectField, where, args)`: the `_num_` column of the
      first row, None when no row matches, `KeyError` when the row lacks
      that column. */
  function FindNumber(s: Schema, db: DriverCall -> seq<Row>, selectField: string,
                      where: Option<string>, args: Option<seq<Value>>): (r: Result<Option<Value>, LookupError>)
    ensures var rows := db(Prepare(Join(" ", NumberClauses(s, selectField, where)), args));
      && (rows == [] ==> r == Ok(None))
      && (rows != [] && "_num_" in rows[0] ==> r == Ok(Some(rows[0]["_num_"])))
      && (rows != [] && "_num_" !in rows[0] ==> r == Err(KeyError("_num_")))
  {
    var rs := Select(db, Join(" ", NumberClauses(s, selectField, where)), args, 1);
    if |rs| == 0 then Ok(None)
    else if "_num_" in rs[0] then Ok(Some(rs[0]["_num_"]))
    else Err(KeyError("_num_"))
  }

  /** A model instance: the class schema and the instance dict. */
  class Instance {
    const schema: Schema
    var values: map<string, Value>

    /** `cls(**kw)`. */
    constructor(schema: Schema, kw: map<string, Value>)
      ensures this.schema == schema && values == kw
    {
      this.schema := schema;
      values := kw;
    }

    /** `__getattr__`: a missing key is an `AttributeError`. */
    method GetAttr(key: string) returns (r: Result<Value, LookupError>)
      ensures r.Ok? <==> key in values
      ensures r.Ok? ==> r.value == values[key]
      ensures r.Err? ==> r.error == AttributeError("'Model' object has no attribute '" + key + "'")
    {
      if key in values {
        return Ok(values[key]);
      }
      return Err(AttributeError("'Model' object has no attribute '" + key + "'"));
    }

    /** `__setattr__`: a plain dict insert. */
    method SetAttr(key: string, value: Value)
      modifies this
      ensures values == old(values)[key := value]
    {
      values := values[key := value];
    }

    /** `getValue(key)`: the attribute, or None when it is missing. */
    function GetValue(key: string): (v: Value)
      reads this
      ensures key in values ==> v == values[key]
      ensures key !in values ==> v == NoneV
    {
      Get(values, key)
    }

    /** `getValueOrDefault(key)`. */
    method GetValueOrDefault(key: string) returns (r: Result<Value, LookupError>)
      modifies this
      ensures r == OrDefault(schema.mappings, old(values), key).0
      ensures values == OrDefault(schema.mappings, old(values), key).1
    {
      var value := GetValue(key);
      if value == NoneV {
        if key !in schema.mappings {
          return Err(KeyError(key));
        }
        var field := schema.mappings[key];
        if field.default != NoneV {
          // The default is resolved (a factory is called) into a variable
          // that is never read again; `value` is still None when stored.
          var resolved := if field.default.FactoryV? then field.default.produces else field.default;
          SetAttr(key, value);
        }
      }
      return Ok(value);
    }

    /** `getValueOrDefault` of each of `keys` in turn, collecting the
        results. */
    method GetValuesOrDefault(keys: seq<string>) returns (args: seq<Value>)
      requires forall k :: k in keys ==> k in schema.mappings
      modifies this
      ensures args == CurrentValues(old(values), keys)
      ensures values == Filled(schema.mappings, old(values), keys)
    {
      args := [];
      var i := 0;
      while i < |keys|
        invariant 0 <= i <= |keys|
        invariant args == CurrentValues(old(values), keys[..i])
        invariant values == Filled(schema.mappings, old(values), keys[..i])
      {
        ghost var done := keys[..i];
        var k := keys[i];
        FilledSpec(schema.mappings, old(values), done);
        assert keys[..i + 1] == done + [k];
        assert (done + [k])[..|done|] == done;
        var r := GetValueOrDefault(k);
        assert r == Ok(Get(old(values), k));
        args := args + [r.value];
        assert CurrentValues(old(values), done + [k]) == CurrentValues(old(values), done) + [Get(old(values), k)];
        i := i + 1;
      }
      assert keys[..i] == keys;
    }

    /** `save()`: `getValueOrDefault` of each regular field and then of the
        primary key, sent with the INSERT template; an affected-row count
        other than 1 only logs a warning. */
    method Save(db: DriverCall -> int) returns (call: DriverCall, warned: bool)
      requires WellFormed(schema)
      modifies this
      ensures values == Filled(schema.mappings, old(values), RowKeys(schema))
      ensures call == Prepare(schema.insert, Some(CurrentValues(old(values), RowKeys(schema))))
      ensures warned <==> db(call) != 1
    {
      var args := GetValuesOrDefault(schema.fields + [schema.primaryKey]);
      call := Prepare(schema.insert, Some(args));
      var rows := Execute(db, schema.insert, args);
      warned := rows != 1;
    }

    /** `update()`: `getValue` of each regular field and of the primary key,
        sent with the UPDATE template. */
    method Update(db: DriverCall -> int) returns (call: DriverCall, warned: bool)
      ensures call == Prepare(schema.update, Some(CurrentValues(values, RowKeys(schema))))
      ensures warned <==> db(call) != 1
    {
      var current := values;
      var fs := schema.fields;
      var args := seq(|fs|, i requires 0 <= i < |fs| => Get(current, fs[i])) + [Get(current, schema.primaryKey)];
      assert args == CurrentValues(values, RowKeys(schema));
      call := Prepare(schema.update, Some(args));
      var rows := Execute(db, schema.update, args);
      warned := rows != 1;
    }

    /** `remove()`: the primary key's value alone, sent with the DELETE
        template. */
    method Remove(db: DriverCall -> int) returns (call: DriverCall, warned: bool)
      ensures call == Prepare(schema.delete, Some([GetValue(schema.primaryKey)]))
      ensures warned <==> db(call) != 1
    {
      var args := [GetValue(schema.primaryKey)];
      call := Prepare(schema.delete, Some(args));
      var rows := Execute(db, schema.delete, args);
      warned := rows != 1;
    }
  }
}
