/** Properties of the instance operations and of the statements the query
    helpers send. */
module ModelProperties {
  import opened Values
  import opened SqlText
  import opened Fields
  import opened Schema
  import opened Driver
  import opened Model
  import opened SchemaProperties

  /** A key that is set stays as it is; a missing key with a default is
      stored as None; so asking twice changes nothing more. */
  lemma OrDefaultIdempotent(mappings: map<string, Field>, values: map<string, Value>, key: string)
    ensures OrDefault(mappings, OrDefault(mappings, values, key).1, key) == OrDefault(mappings, values, key)
  {
    var after := OrDefault(mappings, values, key).1;
    if Get(values, key) == NoneV && key in mappings && mappings[key].default != NoneV {
      assert after == values[key := NoneV];
      assert after[key := NoneV] == after;
    }
  }

  /** What `getValueOrDefault` returns is always the value already there
      (None when absent), never a default, and no `getValue` result
      changes; it fails exactly on a missing key that is not a field. */
  lemma OrDefaultReturnsCurrent(mappings: map<string, Field>, values: map<string, Value>, key: string)
    ensures var (r, after) := OrDefault(mappings, values, key);
      && (r.Err? <==> Get(values, key) == NoneV && key !in mappings)
      && (r.Err? ==> r.error == KeyError(key))
      && (r.Ok? ==> r.value == Get(values, key))
      && (forall k :: Get(after, k) == Get(values, k))
      && after.Keys == values.Keys + (if r.Ok? && Get(values, key) == NoneV && mappings[key].default != NoneV then {key} else {})
  {
  }

  /** The defect in `getValueOrDefault`: for an unset field with a
      non-None default, the result is None rather than that default, and
      None is what gets stored. */
  lemma DefaultNeverReturned(mappings: map<string, Field>, values: map<string, Value>, key: string)
    requires key in mappings && mappings[key].default != NoneV && Get(values, key) == NoneV
    ensures OrDefault(mappings, values, key).0 == Ok(NoneV)
    ensures OrDefault(mappings, values, key).0 != Ok(mappings[key].default)
    ensures OrDefault(mappings, values, key).1[key] == NoneV
  {
  }

  /** One instance of `DefaultNeverReturned`, as an illustration: a field
      built with `IntegerField()` defaults to 0, yet an instance without
      that attribute reads back None from `getValueOrDefault`. */
  lemma IntegerDefaultLost(values: map<string, Value>)
    requires "id" !in values
    ensures var f := IntegerField(primaryKey := true);
      && f.default == IntV(0)
      && OrDefault(map["id" := f], values, "id") == (Ok(NoneV), values["id" := NoneV])
  {
  }

  /** `findAll`'s statement written out as one string. */
  function FindAllSql(select: string, where: Option<string>, orderBy: Option<string>, limit: Value): string {
    select
      + (if Given(where) then " where " + where.value else "")
      + (if Given(orderBy) then " order by " + orderBy.value else "")
      + (if limit.NoneV? then "" else " limit " + LimitMarks(limit))
  }

  lemma JoinPair(parts: seq<string>, a: string, b: string)
    requires parts != []
    ensures Join(" ", parts + [a, b]) == Join(" ", parts) + (" " + a + " " + b)
  {
    JoinSnoc(" ", parts, a);
    JoinSnoc(" ", parts + [a], b);
    assert parts + [a] + [b] == parts + [a, b];
  }

  /** Appending an optional keyword clause to a clause list. */
  lemma JoinClause(parts: seq<string>, given: bool, keyword: string, lead: string, v: string)
    requires parts != [] && lead == " " + keyword + " "
    ensures Join(" ", parts + (if given then [keyword, v] else []))
         == Join(" ", parts) + (if given then lead + v else "")
  {
    if given {
      JoinPair(parts, keyword, v);
    } else {
      assert parts + [] == parts;
    }
  }

  /** Joining the clause list with single spaces gives the statement
      clause by clause. */
  lemma FindAllSqlShape(select: string, where: Option<string>, orderBy: Option<string>, limit: Value)
    ensures Join(" ", FindAllClauses(select, where, orderBy, limit)) == FindAllSql(select, where, orderBy, limit)
  {
    var w := if Given(where) then ["where", where.value] else [];
    var o := if Given(orderBy) then ["order by", orderBy.value] else [];
    var l := if limit.NoneV? then [] else ["limit", LimitMarks(limit)];
    assert Join(" ", [select]) == select;
    JoinClause([select], Given(where), "where", " where ", if Given(where) then where.value else "");
    JoinClause([select] + w, Given(orderBy), "order by", " order by ", if Given(orderBy) then orderBy.value else "");
    JoinClause([select] + w + o, !limit.NoneV?, "limit", " limit ", LimitMarks(limit));
    assert FindAllClauses(select, where, orderBy, limit) == [select] + w + o + l;
  }

  /** An optional clause adds the placeholders of its text and none of
      its keyword. */
  lemma OptionalClauseCount(given: bool, lead: string, v: string)
    requires '?' !in lead
    ensures Count('?', if given then lead + v else "") == if given then Count('?', v) else 0
  {
    if given {
      CountAbsent('?', lead);
      CountAppend('?', lead, v);
    }
  }

  /** A valid limit clause carries one placeholder per limit argument. */
  lemma LimitClauseCount(limit: Value)
    requires ValidLimit(limit)
    ensures Count('?', if limit.NoneV? then "" else " limit " + LimitMarks(limit)) == |LimitArgs(limit)|
  {
    CountAbsent('?', " limit ");
    if limit.TupleV? {
      CountAbsent('?', ", ");
      CountAppend('?', "?", ", ");
      CountAppend('?', "?, ", "?");
      assert "?, " + "?" == "?, ?";
      CountAppend('?', " limit ", "?, ?");
    } else if !limit.NoneV? {
      CountAppend('?', " limit ", "?");
    }
  }

  /** The statement carries the placeholders of the SELECT template, of
      the caller's where and order-by text, and one per argument the limit
      adds. */
  lemma FindAllPlaceholders(select: string, where: Option<string>, orderBy: Option<string>, limit: Value)
    requires ValidLimit(limit)
    ensures Count('?', FindAllSql(select, where, orderBy, limit))
         == Count('?', select)
            + (if Given(where) then Count('?', where.value) else 0)
            + (if Given(orderBy) then Count('?', orderBy.value) else 0)
            + |LimitArgs(limit)|
  {
    var sw := if Given(where) then " where " + where.value else "";
    var so := if Given(orderBy) then " order by " + orderBy.value else "";
    var sl := if limit.NoneV? then "" else " limit " + LimitMarks(limit);
    OptionalClauseCount(Given(where), " where ", if Given(where) then where.value else "");
    OptionalClauseCount(Given(orderBy), " order by ", if Given(orderBy) then orderBy.value else "");
    LimitClauseCount(limit);
    CountAppend('?', select, sw);
    CountAppend('?', select + sw, so);
    CountAppend('?', select + sw + so, sl);
  }

  /** `findNumber`'s statement written out. */
  lemma NumberSqlShape(s: Schema, selectField: string, where: Option<string>)
    ensures Join(" ", NumberClauses(s, selectField, where))
         == "select " + selectField + " _num_ from `" + s.table + "`"
            + (if Given(where) then " where " + where.value else "")
  {
  }

  /** `find` sends one argument to a statement with one marker. */
  lemma FindBalanced(s: Schema, pk: Value)
    requires WellFormed(s) && CleanNames(s)
    ensures var c := Prepare(FindSql(s), Some([pk]));
      Markers(c.sql) == |c.args| == 1
  {
    TemplatePlaceholders(s);
    FindSqlCount(s.select, s.primaryKey);
  }

  /** The text `find` appends to the SELECT template adds one placeholder
      and no `%`. */
  lemma FindSqlCount(select: string, pk: string)
    requires '%' !in select && Clean(pk)
    ensures '%' !in select + " where `" + pk + "`=?"
    ensures Count('?', select + " where `" + pk + "`=?") == Count('?', select) + 1
  {
    var tail := " where `" + pk + "`=";
    assert select + " where `" + pk + "`=?" == select + tail + "?";
    CountAbsent('?', tail);
    CountAppend('?', select, tail);
    CountAppend('?', select + tail, "?");
  }

  /** `save` sends one value per field and one for the key, but its INSERT
      statement (see `Placeholders.ArgsString`) carries a single marker:
      for every schema with at least one regular field, the statement and
      the argument list disagree. */
  lemma SaveUnbalanced(s: Schema, values: map<string, Value>)
    requires WellFormed(s) && CleanNames(s)
    ensures var c := Prepare(s.insert, Some(CurrentValues(values, RowKeys(s))));
      Markers(c.sql) == 1 && |c.args| == |s.fields| + 1
  {
    TemplatePlaceholders(s);
  }

  /** `update` sends exactly as many values as its statement has markers,
      the key's value last, to match the trailing WHERE. */
  lemma UpdateBalanced(s: Schema, values: map<string, Value>)
    requires WellFormed(s) && CleanNames(s)
    ensures var c := Prepare(s.update, Some(CurrentValues(values, RowKeys(s))));
      && Markers(c.sql) == |c.args| == |s.fields| + 1
      && c.args[|s.fields|] == Get(values, s.primaryKey)
  {
    TemplatePlaceholders(s);
  }

  /** `remove` sends the key's value alone to a one-marker statement. */
  lemma RemoveBalanced(s: Schema, pk: Value)
    requires WellFormed(s) && CleanNames(s)
    ensures var c := Prepare(s.delete, Some([pk]));
      Markers(c.sql) == |c.args| == 1
  {
    TemplatePlaceholders(s);
  }
}
