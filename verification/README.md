# A Dafny model of the www/orm.py object-relational mapper

The ORM maps a model class to one database table. When a class is
declared, its metaclass (`ModelMetaclass.__new__`) collects the `Field`
attributes of the class body, checks that exactly one of them is the
primary key, removes them from the class namespace and formats four SQL
templates (SELECT, INSERT, UPDATE, DELETE). A model instance is a dict
from attribute name to value. `save`, `update` and `remove` send one of
the templates with an argument list built from that dict. `findAll` and
`find` extend the SELECT template; `findNumber` builds its own
`select <expr> _num_ from` statement. `findAll` returns the rows, `find`
the first row or None, `findNumber` the `_num_` column of the first row
or None. Every statement goes through `select` or
`execute`, which rewrite the portable placeholder `?` into the driver's
marker `%s`.

The model has one module per concern:

- `Values`: the Python values the ORM handles, Python truthiness, and `Option`/`Result`.
- `SqlText`: `sep.join(parts)` and character counting.
- `Placeholders`: `create_args_string`.
- `Driver`: `select`/`execute`. The database is an oracle function from the
  call the driver receives (`DriverCall`: rewritten SQL plus arguments) to
  its rows or its affected-row count.
- `Fields`: `Field` and its five presets.
- `Schema`: the metaclass, with a specification function (`SchemaOf`) and
  the imperative version (`BuildSchema`) that runs the source's two loops.
  The class body is an ordered `seq` of (name, attribute) pairs. As in a
  dict, each name occurs once (`DistinctKeys`), and the schema builder
  requires this.
- `SchemaProperties`: the metaclass's promises, stated against independent
  definitions of "the primary-key attributes", "the regular fields" and
  "the plain attributes", plus placeholder counts of every template.
- `Model`: the instance as a class with a mutable `values` map, and the
  class-level queries. `findAll` extends the caller's argument list in
  place, so that list is a class (`ArgList`) as well.
- `ModelProperties`: properties of `getValueOrDefault` and of the
  statement/argument pairs each operation sends.

Three defects of the code are kept as written, and the model states what
they cause:

- `create_args_string` returns from inside its loop (www/orm.py:64-68).
  Any positive count yields `"?"`; zero or less yields `None`. So every
  INSERT template ends in `values (?)`. When the table, key and column names
  hold neither `?` nor `%`, `save` sends `|fields| + 1` arguments to a
  statement with one marker (`ModelProperties.SaveUnbalanced`), which
  disagree whenever the class has a regular field besides its key.
  The loop appends one `?` per column and joins the list with commas, so a
  list of N placeholders was evidently meant (`Placeholders.ArgsStringShort`
  compares the two).
- `getValueOrDefault` assigns the resolved default to the local `field`
  (www/orm.py:165). It therefore returns `None` and stores `None`, never the
  default (`ModelProperties.DefaultNeverReturned`). The code calls a
  factory default and logs "using default value", so returning and storing
  the default was evidently meant.
- `escaped_fields` is formatted with `'%s' % f` (www/orm.py:132), which adds no
  backticks. The regular columns of SELECT and INSERT are unquoted, although
  the name `escaped_fields` and the quoted table and key names show that
  quoting was meant.

`findNumber` aliases the column as `select <expr> _num_` without `as`
(www/orm.py:200); the model uses exactly that text.

## Model

| member | source | states |
|---|---|---|
| Placeholders.ArgsString | www/orm.py:64-68 | a count of 1 or more gives the single placeholder "?"; a count below 1 gives None |
| Placeholders.CreateArgsString | www/orm.py:64-68 | the loop with its early return computes exactly `ArgsString(num)` |
| Placeholders.CommaPlaceholdersCount | www/orm.py:64-68 | the list the loop would build if it ran to the end has exactly n placeholders |
| Placeholders.ArgsStringShort | www/orm.py:64-68 | for two or more columns the result is the one-column list, not the n-column list, and has fewer placeholders than columns |
| Driver.Rewrite | www/orm.py:36 | the rewritten SQL has no `?` left and grows by one character per `?` |
| Driver.RewriteIdentity | www/orm.py:36 | SQL without `?` passes through unchanged |
| Driver.RewriteRoundTrip | www/orm.py:57 | SQL without `%` is recovered by turning each `%s` back into `?` |
| Driver.MarkersOfRewrite | www/orm.py:57 | in SQL without `%`, the driver sees exactly one `%s` marker per `?` |
| Driver.Prepare | www/orm.py:57 | the call the cursor receives: no `?` in its SQL; for SQL without `%`, one `%s` marker per placeholder and the original SQL recoverable; missing arguments become the empty list |
| Driver.Select | www/orm.py:29-44 | with a size, exactly the first min(size, all) rows of the full result; without a size, the full result |
| Driver.Execute | www/orm.py:50-62 | the affected-row count is the one the driver reports for the rewritten SQL and the given arguments |
| Fields.StringField | www/orm.py:82-84 | a `varchar(100)` column unless `ddl` says otherwise; the other arguments are kept |
| Fields.IntegerField | www/orm.py:86-88 | a `bigint` column, default 0 |
| Fields.BooleanField | www/orm.py:90-92 | a `boolean` column that is never the primary key, default False |
| Fields.FloatField | www/orm.py:94-96 | a `real` column, default 0.0 |
| Fields.TextField | www/orm.py:98-100 | a `text` column that is never the primary key |
| Fields.ColumnName | www/orm.py:140 | a non-empty `name` override is the column name; otherwise the attribute name |
| Schema.Lookup | www/orm.py:108 | a found value is the value of an entry with that key; not found means no entry has the key |
| Schema.TableName | www/orm.py:108 | a non-empty string `__table__` names the table; otherwise the class name does |
| Schema.ScanStep | www/orm.py:117-126 | one iteration of the field loop keeps mappings, fields and primary key consistent |
| Schema.ScanAll | www/orm.py:114-126 | on success, `keys` lists exactly the keys of `mappings`, and every name in `fields` and the primary key, if one is recorded, is one of them |
| Schema.SetClauses | www/orm.py:140 | one item per regular field, in order, each `` `col`=? `` with the field's column name |
| Schema.SchemaOf | www/orm.py:102-142 | the base class `Model` is returned untouched; any other successful class keeps its name, has the table name of `TableName`, and its four templates are `SelectTemplate`, `InsertTemplate`, `UpdateTemplate` and `DeleteTemplate` of its fields (the formats of www/orm.py:138-141) |
| Schema.ScanStaysFailed | www/orm.py:122-123 | once a duplicate primary key is found, later attributes do not change the error |
| Schema.WithoutKeysTwice | www/orm.py:130-131 | popping one set of keys and then another pops their union |
| Schema.ScanAttributes | www/orm.py:111-126 | the field loop, run imperatively, gives exactly the result of `ScanAll` |
| Schema.PopMapped | www/orm.py:130-131 | popping each mapped key in turn leaves the namespace without those keys |
| Schema.BuildSchema | www/orm.py:102-142 | the metaclass, run step by step, gives exactly the result of `SchemaOf` |
| SchemaProperties.ScanPrimaryKeys | www/orm.py:120-124 | the scan fails exactly when a second primary key appears, names that second key, and otherwise records the first |
| SchemaProperties.PrimaryKeyRule | www/orm.py:120-128 | a class builds exactly when one attribute is the primary key; none gives "Primary key not found", two or more give the duplicate error naming the second; `Message` gives the source's exact error texts |
| SchemaProperties.ScanMappings | www/orm.py:117-119 | the mappings hold exactly the field attributes, each with its declared descriptor |
| SchemaProperties.ScanFields | www/orm.py:117-126 | the fields are the non-key field attributes in declaration order; every mapped key is one of them or the primary key, and the flags agree |
| SchemaProperties.WithoutFieldKeys | www/orm.py:130-131 | popping exactly the field names leaves the plain attributes in order |
| SchemaProperties.FieldPartition | www/orm.py:111-136 | fields and primary key partition the mappings, the key is not a regular field, and the class keeps exactly its plain attributes |
| SchemaProperties.SetClausesCount | www/orm.py:140 | the SET list has one placeholder per regular field and no `%` |
| SchemaProperties.SelectPlaceholders | www/orm.py:138 | `SelectTemplate` has no placeholder and no `%` |
| SchemaProperties.InsertPlaceholders | www/orm.py:139 | `InsertTemplate` has exactly one placeholder, whatever the number of columns |
| SchemaProperties.UpdatePlaceholders | www/orm.py:140 | `UpdateTemplate` has one placeholder per regular field plus one for the key |
| SchemaProperties.UpdateFromSetList | www/orm.py:140 | the text around the SET list adds one placeholder and no `%` |
| SchemaProperties.DeletePlaceholders | www/orm.py:141 | `DeleteTemplate` has exactly one placeholder |
| SchemaProperties.TemplatePlaceholders | www/orm.py:138-141 | placeholder counts of all four templates: 0, 1, fields + 1, 1; none contains `%` |
| SchemaProperties.InsertEndsWithOnePlaceholder | www/orm.py:139 | every INSERT template ends in `values (?)` |
| Model.CurrentValues | www/orm.py:225-226 | one value per key, each the key's value or None when it is missing |
| Model.FilledSpec | www/orm.py:160-168 | running `getValueOrDefault` over a list of keys changes no value that `getValue` reads, and adds exactly the mapped, unset keys that have a default |
| Model.ArgList.constructor | www/orm.py:177-178 | a fresh argument list holds what it was given |
| Model.FindAll | www/orm.py:171-195 | an invalid `limit` is an error; otherwise the rows for the joined `FindAllClauses` (www/orm.py:173-193: the SELECT template, then where, order by and limit when given), with the limit arguments appended to the caller's list in place |
| Model.Find | www/orm.py:210-215 | not found exactly when the key query `FindSql` (www/orm.py:212) returns no row; otherwise its first row |
| Model.FindNumber | www/orm.py:198-207 | for the joined `NumberClauses` (www/orm.py:200-203): None on no row, the `_num_` column of the first row, or a `KeyError` when that column is missing |
| Model.Instance.constructor | www/orm.py:145-146 | the instance dict is the keyword arguments |
| Model.Instance.GetAttr | www/orm.py:148-152 | a present key gives its value; a missing key gives the AttributeError with the source's message |
| Model.Instance.SetAttr | www/orm.py:154-155 | sets exactly that key |
| Model.Instance.GetValue | www/orm.py:157-158 | the key's value, or None when it is missing |
| Model.Instance.GetValueOrDefault | www/orm.py:160-168 | result and new dict are those of the function `OrDefault` (whose properties the `ModelProperties.OrDefault…` lemmas state): the current value, a KeyError for an unset non-field, None stored for an unset field with a default |
| Model.Instance.GetValuesOrDefault | www/orm.py:218-219 | the values collected are the values before the call; the dict gains None for each unset key with a default |
| Model.Instance.Save | www/orm.py:217-222 | sends the INSERT template with the regular fields' values and then the key's; warns exactly when the affected count is not 1 |
| Model.Instance.Update | www/orm.py:224-229 | sends the UPDATE template with the regular fields' values and then the key's; warns exactly when the affected count is not 1 |
| Model.Instance.Remove | www/orm.py:231-235 | sends the DELETE template with the key's value alone; warns exactly when the affected count is not 1 |
| ModelProperties.OrDefaultIdempotent | www/orm.py:160-168 | a second `getValueOrDefault` of the same key returns the same and changes nothing |
| ModelProperties.OrDefaultReturnsCurrent | www/orm.py:160-168 | the result is always the value already there, never a default; the call fails exactly on an unset non-field; no `getValue` result changes |
| ModelProperties.DefaultNeverReturned | www/orm.py:164-167 | for an unset field with a default, the result is None rather than the default, and None is stored |
| ModelProperties.IntegerDefaultLost | www/orm.py:164-167 | an unset `IntegerField` key reads back None, not its default 0 |
| ModelProperties.FindAllSqlShape | www/orm.py:173-194 | the joined clause list is the SELECT template followed by ` where …`, ` order by …` and ` limit …`, each only when given |
| ModelProperties.FindAllPlaceholders | www/orm.py:173-194 | the statement carries the SELECT template's placeholders, those of the caller's where and order-by text, and exactly one per argument a valid limit appends |
| ModelProperties.NumberSqlShape | www/orm.py:200-204 | the count query is `select <expr> _num_ from` the table, followed by ` where …` only when given |
| ModelProperties.FindBalanced | www/orm.py:212 | when no table, key or column name holds `?` or `%`, `find` sends one argument to `FindSql`, which has one marker |
| ModelProperties.SaveUnbalanced | www/orm.py:217-220 | when no table, key or column name holds `?` or `%`, `save` sends fields + 1 arguments to a statement with one marker |
| ModelProperties.UpdateBalanced | www/orm.py:224-227 | when no table, key or column name holds `?` or `%`, `update` sends as many arguments as its statement has markers, the key's value last |
| ModelProperties.RemoveBalanced | www/orm.py:231-233 | when no table, key or column name holds `?` or `%`, `remove` sends one argument to a statement with one marker |

## Left out

- `create_pool` (www/orm.py:12-26): connection-pool configuration is I/O. The pool, connections, cursors, `async`/`await` and the re-raise in `execute` are replaced by the oracle `db`.
- Logging: `log` and the `logging` calls only write text. `save`, `update` and `remove` expose whether they would warn as `warned`.
- `Field.__str__` (www/orm.py:78-79): it is used only in a log line.
- Floating point: `FloatV` carries a real number that is never computed with.
- A save followed by a find returning the saved row is not modelled. The oracle has no state, so that round trip would need a model of the database's semantics.
- Model.Instance.GetValue: Python's `getattr(self, key, None)` first finds class attributes (methods, `__table__`, …). The model reads the instance dict only.
- Model.Instance.GetValueOrDefault: a callable default is a `FactoryV` that produces a value; what else the callable does is not modelled.
- Schema.TableName: a truthy `__table__` that is not a string (a number, say) would become the table name in Python. The model falls back to the class name instead.
- SchemaProperties.ScanPrimaryKeys, SchemaProperties.PrimaryKeyRule, SchemaProperties.FieldPartition: they assume non-empty attribute names (an empty primary-key name is falsy in `if primaryKey:`) and, where stated, keys that occur once. Python class bodies always satisfy both; the scan functions themselves accept any input.
- Model.FindAll: the `ValueError` carries the offending value, not the text `str(limit)` builds. The rows are returned as dicts; `cls(**r)` would wrap each one in an instance.
- Model.Find: returns the row that `cls(**rs[0])` would wrap.
- Driver.Select: `size` is a natural number, and 0 stands for `None`; both mean "all rows", as `if size:` does.
- Instances of the base class `Model`, which has no schema, are not modelled: `Model.Instance` always carries a schema.
- www/orm.py:1-8 imports and the log helper, and www/app.py (the HTTP bootstrap): www/app.py is not part of this model.
