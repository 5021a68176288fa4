/** What the schema builder promises, stated against independent
    definitions of "the primary-key attributes", "the regular fields" and
    "the non-field attributes" of a class body. */
module SchemaProperties {
  import opened Values
  import opened SqlText
  import opened Fields
  import opened Schema
  import Placeholders

  predicate IsPrimary(a: Attr) {
    a.FieldAttr? && a.field.primaryKey
  }

  predicate IsRegular(a: Attr) {
    a.FieldAttr? && !a.field.primaryKey
  }

  /** Names of the field attributes marked primary key, in order. */
  function PrimaryKeys(attrs: Attrs): seq<string> {
    if attrs == [] then []
    else PrimaryKeys(attrs[..|attrs| - 1])
         + (if IsPrimary(attrs[|attrs| - 1].1) then [attrs[|attrs| - 1].0] else [])
  }

  /** Names of the other field attributes, in order. */
  function RegularFields(attrs: Attrs): seq<string> {
    if attrs == [] then []
    else RegularFields(attrs[..|attrs| - 1])
         + (if IsRegular(attrs[|attrs| - 1].1) then [attrs[|attrs| - 1].0] else [])
  }

  /** The attributes that are not fields, in order. */
  function PlainAttrs(attrs: Attrs): Attrs {
    if attrs == [] then []
    else PlainAttrs(attrs[..|attrs| - 1])
         + (if attrs[|attrs| - 1].1.Plain? then [attrs[|attrs| - 1]] else [])
  }

  /** `k` names a field attribute of the class body. */
  predicate IsFieldName(attrs: Attrs, k: string) {
    Lookup(attrs, k).Some? && Lookup(attrs, k).value.FieldAttr?
  }

  /** The scan errs exactly at the second primary key and otherwise records
      the first (and only) one. */
  lemma {:induction false} ScanPrimaryKeys(attrs: Attrs)
    requires NamedAttrs(attrs)
    ensures ScanAll(attrs).Ok? <==> |PrimaryKeys(attrs)| <= 1
    ensures ScanAll(attrs).Ok? ==>
              ScanAll(attrs).value.primaryKey == if PrimaryKeys(attrs) == [] then None else Some(PrimaryKeys(attrs)[0])
    ensures ScanAll(attrs).Err? ==> ScanAll(attrs).error == DuplicatePrimaryKey(PrimaryKeys(attrs)[1])
  {
    if attrs != [] {
      var prefix := attrs[..|attrs| - 1];
      var (k, a) := attrs[|attrs| - 1];
      assert NamedAttrs(prefix) by {
        forall i | 0 <= i < |prefix| ensures prefix[i].0 != "" {
          assert prefix[i] == attrs[i];
        }
      }
      ScanPrimaryKeys(prefix);
      var pks := PrimaryKeys(prefix);
      assert PrimaryKeys(attrs) == pks + (if IsPrimary(a) then [k] else []);
      if ScanAll(prefix).Ok? && IsPrimary(a) && pks != [] {
        PrimaryKeyNamed(prefix);
        assert pks[0] in pks;
      }
    }
  }

  /** Primary key check: outside the base class, schema building succeeds
      exactly when one field attribute is the primary key; none raises
      "Primary key not found", two or more raise "Duplicate primary key"
      naming the second one. */
  lemma PrimaryKeyRule(name: string, attrs: Attrs)
    requires name != "Model" && DistinctKeys(attrs) && NamedAttrs(attrs)
    ensures SchemaOf(name, attrs).Ok? <==> |PrimaryKeys(attrs)| == 1
    ensures SchemaOf(name, attrs).Ok? ==> SchemaOf(name, attrs).value.schema.value.primaryKey == PrimaryKeys(attrs)[0]
    ensures PrimaryKeys(attrs) == [] ==> SchemaOf(name, attrs) == Err(PrimaryKeyNotFound)
    ensures |PrimaryKeys(attrs)| >= 2 ==> SchemaOf(name, attrs) == Err(DuplicatePrimaryKey(PrimaryKeys(attrs)[1]))
    ensures PrimaryKeys(attrs) == [] ==> Message(SchemaOf(name, attrs).error) == "Primary key not found."
    ensures |PrimaryKeys(attrs)| >= 2 ==>
              Message(SchemaOf(name, attrs).error) == "Duplicate primary key for field: " + PrimaryKeys(attrs)[1]
  {
    ScanPrimaryKeys(attrs);
    if PrimaryKeys(attrs) != [] && ScanAll(attrs).Ok? {
      PrimaryKeyNamed(attrs);
    }
  }

  lemma {:induction false} PrimaryKeyNamed(attrs: Attrs)
    requires NamedAttrs(attrs)
    ensures forall k :: k in PrimaryKeys(attrs) ==> k != ""
  {
    if attrs != [] {
      var prefix := attrs[..|attrs| - 1];
      assert NamedAttrs(prefix) by {
        forall i | 0 <= i < |prefix| ensures prefix[i].0 != "" {
          assert prefix[i] == attrs[i];
        }
      }
      PrimaryKeyNamed(prefix);
    }
  }

  /** In a dict, looking up the key of an entry finds that entry. */
  lemma LookupDistinct(attrs: Attrs, i: nat)
    requires DistinctKeys(attrs) && i < |attrs|
    ensures Lookup(attrs, attrs[i].0) == Some(attrs[i].1)
  {
  }

  lemma PrefixDistinct(attrs: Attrs)
    requires attrs != [] && DistinctKeys(attrs) && NamedAttrs(attrs)
    ensures DistinctKeys(attrs[..|attrs| - 1]) && NamedAttrs(attrs[..|attrs| - 1])
    ensures forall i :: 0 <= i < |attrs| - 1 ==> attrs[i].0 != attrs[|attrs| - 1].0
  {
  }

  /** The scan's mappings are exactly the field attributes of the class
      body, each mapped to its declared descriptor. */
  lemma {:induction false} ScanMappings(attrs: Attrs)
    requires DistinctKeys(attrs) && NamedAttrs(attrs) && ScanAll(attrs).Ok?
    ensures var s := ScanAll(attrs).value;
      && (forall k :: k in s.mappings <==> IsFieldName(attrs, k))
      && (forall k :: k in s.mappings ==> Lookup(attrs, k) == Some(FieldAttr(s.mappings[k])))
  {
    if attrs != [] {
      var prefix := attrs[..|attrs| - 1];
      var (k, a) := attrs[|attrs| - 1];
      PrefixDistinct(attrs);
      ScanMappings(prefix);
      var acc := ScanAll(prefix).value;
      var s := ScanAll(attrs).value;
      assert k !in acc.mappings;
      assert s.mappings == if a.FieldAttr? then acc.mappings[k := a.field] else acc.mappings;
      forall x
        ensures x in s.mappings <==> IsFieldName(attrs, x)
        ensures x in s.mappings ==> Lookup(attrs, x) == Some(FieldAttr(s.mappings[x]))
      {
        if x == k {
          assert Lookup(attrs, x) == Some(a);
        } else {
          assert Lookup(attrs, x) == Lookup(prefix, x);
        }
      }
    }
  }

  /** The scan's `fields` are the regular field attributes in order, every
      mapped key is one of them or the primary key, and the flags agree. */
  lemma {:induction false} ScanFields(attrs: Attrs)
    requires DistinctKeys(attrs) && NamedAttrs(attrs) && ScanAll(attrs).Ok?
    ensures var s := ScanAll(attrs).value;
      && s.fields == RegularFields(attrs)
      && (forall k :: k in s.mappings ==> k in s.fields || s.primaryKey == Some(k))
      && (s.primaryKey.Some? ==> s.mappings[s.primaryKey.value].primaryKey)
      && (forall k :: k in s.fields ==> !s.mappings[k].primaryKey)
  {
    if attrs != [] {
      var prefix := attrs[..|attrs| - 1];
      var (k, a) := attrs[|attrs| - 1];
      PrefixDistinct(attrs);
      ScanFields(prefix);
      ScanMappings(prefix);
      var acc := ScanAll(prefix).value;
      var s := ScanAll(attrs).value;
      assert k !in acc.mappings;
      assert k !in acc.fields;
      if acc.primaryKey.Some? {
        assert acc.primaryKey.value in acc.mappings;
      }
      match a
      case Plain(_) =>
        assert s == acc;
      case FieldAttr(f) =>
        if f.primaryKey {
          PrimaryKeyNamedScan(prefix);
          assert acc.primaryKey == None;
          assert s == Scan(acc.mappings[k := f], acc.keys + [k], acc.fields, Some(k));
        } else {
          assert s == Scan(acc.mappings[k := f], acc.keys + [k], acc.fields + [k], acc.primaryKey);
        }
    }
  }

  lemma PrimaryKeyNamedScan(attrs: Attrs)
    requires NamedAttrs(attrs) && ScanAll(attrs).Ok?
    ensures ScanAll(attrs).value.primaryKey.Some? ==> Recorded(ScanAll(attrs).value.primaryKey)
  {
  }

  /** Popping exactly the field names from a dict leaves its plain
      attributes, in order. */
  lemma {:induction false} WithoutFieldKeys(attrs: Attrs, ks: set<string>)
    requires DistinctKeys(attrs)
    requires forall i :: 0 <= i < |attrs| ==> (attrs[i].0 in ks <==> attrs[i].1.FieldAttr?)
    ensures WithoutKeys(attrs, ks) == PlainAttrs(attrs)
  {
    if attrs != [] {
      var prefix := attrs[..|attrs| - 1];
      forall i, j | 0 <= i < j < |prefix| ensures prefix[i].0 != prefix[j].0 {
        assert prefix[i] == attrs[i] && prefix[j] == attrs[j];
      }
      forall i | 0 <= i < |prefix| ensures prefix[i].0 in ks <==> prefix[i].1.FieldAttr? {
        assert prefix[i] == attrs[i];
      }
      WithoutFieldKeys(prefix, ks);
    }
  }

  /** Partition of fields: `__fields__` is the regular field attributes in
      order, the primary key is not among them, the keys of `__mappings__`
      are exactly `__fields__` plus the primary key and map to the declared
      descriptors, and the class keeps precisely its non-field attributes. */
  lemma FieldPartition(name: string, attrs: Attrs)
    requires name != "Model" && DistinctKeys(attrs) && NamedAttrs(attrs)
    requires SchemaOf(name, attrs).Ok?
    ensures var c := SchemaOf(name, attrs).value;
      && c.schema.Some?
      && var s := c.schema.value;
      && s.fields == RegularFields(attrs)
      && [s.primaryKey] == PrimaryKeys(attrs)
      && s.primaryKey !in s.fields
      && (forall k :: k in s.mappings <==> k == s.primaryKey || k in s.fields)
      && (forall k :: k in s.mappings <==> IsFieldName(attrs, k))
      && (forall k :: k in s.mappings ==> Lookup(attrs, k) == Some(FieldAttr(s.mappings[k])))
      && c.attrs == PlainAttrs(attrs)
  {
    PrimaryKeyRule(name, attrs);
    ScanPrimaryKeys(attrs);
    ScanFields(attrs);
    ScanMappings(attrs);
    var scan := ScanAll(attrs).value;
    forall i | 0 <= i < |attrs| ensures attrs[i].0 in scan.mappings.Keys <==> attrs[i].1.FieldAttr? {
      LookupDistinct(attrs, i);
    }
    WithoutFieldKeys(attrs, scan.mappings.Keys);
  }

  /** A name the templates can carry safely: it holds neither the portable
      placeholder nor the driver's marker character. */
  predicate Clean(s: string) {
    '?' !in s && '%' !in s
  }

  predicate CleanNames(s: Schema) {
    Clean(s.table) && Clean(s.primaryKey) &&
    forall i :: 0 <= i < |s.fields| ==>
      Clean(s.fields[i]) && s.fields[i] in s.mappings && Clean(ColumnName(s.mappings[s.fields[i]], s.fields[i]))
  }

  lemma {:induction false} SetClausesCount(fields: seq<string>, mappings: map<string, Field>)
    requires forall i :: 0 <= i < |fields| ==> fields[i] in mappings && Clean(ColumnName(mappings[fields[i]], fields[i]))
    ensures Occurrences('?', SetClauses(fields, mappings)) == |fields|
    ensures forall i :: 0 <= i < |fields| ==> '%' !in SetClauses(fields, mappings)[i]
  {
    if fields != [] {
      SetClausesCount(fields[1..], mappings);
      var col := ColumnName(mappings[fields[0]], fields[0]);
      CountAbsent('?', "`" + col + "`=");
      CountAppend('?', "`" + col + "`=", "?");
      assert "`" + col + "`=?" == "`" + col + "`=" + "?";
      var r := SetClauses(fields, mappings);
      assert r[1..] == SetClauses(fields[1..], mappings);
      forall i | 1 <= i < |fields| ensures '%' !in r[i] {
        assert r[i] == r[1..][i - 1];
      }
    }
  }

  predicate AllClean(names: seq<string>) {
    forall i :: 0 <= i < |names| ==> Clean(names[i])
  }

  lemma SelectPlaceholders(table: string, pk: string, fields: seq<string>)
    requires Clean(table) && Clean(pk) && AllClean(fields)
    ensures '%' !in SelectTemplate(table, pk, fields)
    ensures Count('?', SelectTemplate(table, pk, fields)) == 0
  {
    JoinFree('?', ", ", fields);
    JoinFree('%', ", ", fields);
    var t := SelectTemplate(table, pk, fields);
    assert '%' !in t;
    assert '?' !in t;
    CountAbsent('?', t);
  }

  lemma InsertPlaceholders(table: string, pk: string, fields: seq<string>)
    requires Clean(table) && Clean(pk) && AllClean(fields)
    ensures '%' !in InsertTemplate(table, pk, fields)
    ensures Count('?', InsertTemplate(table, pk, fields)) == 1
  {
    JoinFree('?', ", ", fields);
    JoinFree('%', ", ", fields);
    assert FormatArg(Placeholders.ArgsString(|fields| + 1)) == "?";
    var cols := Join(", ", fields);
    var front := "insert into `" + table + "` (";
    var back := ", `" + pk + "`) values (";
    assert Clean(front) && Clean(back) && Clean(cols);
    var head := front + cols + back;
    assert "insert into `" + table + "` (" + cols + ", `" + pk + "`) values (" == head;
    CountAbsent('?', head);
    CountAppend('?', head, "?");
    CountAppend('?', head + "?", ")");
    assert InsertTemplate(table, pk, fields) == head + "?" + ")";
  }

  lemma UpdatePlaceholders(table: string, pk: string, fields: seq<string>, mappings: map<string, Field>)
    requires Clean(table) && Clean(pk)
    requires forall i :: 0 <= i < |fields| ==> fields[i] in mappings && Clean(ColumnName(mappings[fields[i]], fields[i]))
    ensures forall f :: f in fields ==> f in mappings
    ensures '%' !in UpdateTemplate(table, pk, fields, mappings)
    ensures Count('?', UpdateTemplate(table, pk, fields, mappings)) == |fields| + 1
  {
    var items := SetClauses(fields, mappings);
    SetClausesCount(fields, mappings);
    UpdateFromSetList(table, pk, Join(", ", items), |fields|);
    JoinCount('?', ", ", items);
    JoinFree('%', ", ", items);
  }

  /** The UPDATE text around its `set` list adds one placeholder. */
  lemma UpdateFromSetList(table: string, pk: string, sets: string, n: nat)
    requires Clean(table) && Clean(pk)
    ensures '%' !in sets ==> '%' !in "update `" + table + "` set " + sets + " where `" + pk + "`=?"
    ensures Count('?', sets) == n ==> Count('?', "update `" + table + "` set " + sets + " where `" + pk + "`=?") == n + 1
  {
    var head := "update `" + table + "` set ";
    var tail := " where `" + pk;
    CountAbsent('?', head);
    CountAbsent('?', tail);
    CountAbsent('?', "`=");
    CountAppend('?', "`=", "?");
    assert "`=?" == "`=" + "?";
    CountAppend('?', head, sets);
    CountAppend('?', tail, "`=?");
    CountAppend('?', head + sets, tail + "`=?");
    assert "update `" + table + "` set " + sets + " where `" + pk + "`=?" == (head + sets) + (tail + "`=?");
  }

  lemma DeletePlaceholders(table: string, pk: string)
    requires Clean(table) && Clean(pk)
    ensures '%' !in DeleteTemplate(table, pk)
    ensures Count('?', DeleteTemplate(table, pk)) == 1
  {
    var head := "delete from `" + table + "` where `" + pk + "`=";
    CountAbsent('?', head);
    CountAppend('?', head, "?");
    assert DeleteTemplate(table, pk) == head + "?";
  }

  /** Template shapes, counted: SELECT carries no placeholder, INSERT
      exactly one whatever the column count, UPDATE one per regular field
      plus one for the primary key, DELETE one; none carries a `%`. */
  lemma TemplatePlaceholders(s: Schema)
    requires WellFormed(s) && CleanNames(s)
    ensures '%' !in s.select && '%' !in s.insert && '%' !in s.update && '%' !in s.delete
    ensures Count('?', s.select) == 0
    ensures Count('?', s.insert) == 1
    ensures Count('?', s.update) == |s.fields| + 1
    ensures Count('?', s.delete) == 1
  {
    assert AllClean(s.fields);
    SelectPlaceholders(s.table, s.primaryKey, s.fields);
    InsertPlaceholders(s.table, s.primaryKey, s.fields);
    UpdatePlaceholders(s.table, s.primaryKey, s.fields, s.mappings);
    DeletePlaceholders(s.table, s.primaryKey);
  }

  /** The INSERT template always ends `values (?)`, whatever the number of
      columns it lists. */
  lemma InsertEndsWithOnePlaceholder(s: Schema)
    requires WellFormed(s)
    ensures |s.insert| >= 10 && s.insert[|s.insert| - 10..] == "values (?)"
  {
  }
}
