/** The query executor (`select` and `execute`, www/orm.py) with the
    database driver replaced by an oracle: a function from the call the
    driver receives to the rows it returns or the row count it reports. */
module Driver {
  import opened Values
  import opened SqlText

  /** `sql.replace('?', '%s')`: the portable placeholder becomes the
      driver's positional marker. */
  function Rewrite(sql: string): (r: string)
    ensures '?' !in r
    ensures |r| == |sql| + Count('?', sql)
  {
    if sql == [] then ""
    else
      assert sql == [sql[0]] + sql[1..];
      CountAppend('?', [sql[0]], sql[1..]);
      (if sql[0] == '?' then "%s" else [sql[0]]) + Rewrite(sql[1..])
  }

  /** `s.replace('%s', '?')`, the reverse rewrite, scanning left to right. */
  function Unrewrite(s: string): string {
    if s == [] then ""
    else if |s| >= 2 && s[0] == '%' && s[1] == 's' then "?" + Unrewrite(s[2..])
    else [s[0]] + Unrewrite(s[1..])
  }

  /** The number of `%s` markers the driver binds arguments to. */
  function Markers(s: string): nat {
    if |s| < 2 then 0
    else if s[0] == '%' && s[1] == 's' then 1 + Markers(s[2..])
    else Markers(s[1..])
  }

  /** Text without `?` passes through the rewrite unchanged. */
  lemma {:induction false} RewriteIdentity(sql: string)
    requires '?' !in sql
    ensures Rewrite(sql) == sql
  {
    if sql != [] {
      RewriteIdentity(sql[1..]);
    }
  }

  /** Text free of `%` is recovered from its rewrite. */
  lemma {:induction false} RewriteRoundTrip(sql: string)
    requires '%' !in sql
    ensures Unrewrite(Rewrite(sql)) == sql
  {
    if sql != [] {
      RewriteRoundTrip(sql[1..]);
      var tail := Rewrite(sql[1..]);
      if sql[0] == '?' {
        assert ("%s" + tail)[2..] == tail;
      } else {
        assert ([sql[0]] + tail)[1..] == tail;
      }
    }
  }

  /** In text free of `%`, every `?` becomes exactly one driver marker and
      nothing else does. */
  lemma {:induction false} MarkersOfRewrite(sql: string)
    requires '%' !in sql
    ensures Markers(Rewrite(sql)) == Count('?', sql)
  {
    if sql != [] {
      MarkersOfRewrite(sql[1..]);
      assert sql == [sql[0]] + sql[1..];
      CountAppend('?', [sql[0]], sql[1..]);
      var tail := Rewrite(sql[1..]);
      if sql[0] == '?' {
        assert ("%s" + tail)[2..] == tail;
      } else if tail != [] {
        assert ([sql[0]] + tail)[1..] == tail;
      }
    }
  }

  /** The statement and arguments one driver call receives. */
  datatype DriverCall = DriverCall(sql: string, args: seq<Value>)

  /** `cur.execute(sql.replace('?', '%s'), args or ())`: a missing or empty
      argument list is sent as the empty tuple. */
  function Prepare(sql: string, args: Option<seq<Value>>): (c: DriverCall)
    ensures '?' !in c.sql
    ensures '%' !in sql ==> Unrewrite(c.sql) == sql && Markers(c.sql) == Count('?', sql)
    ensures args.None? ==> c.args == []
    ensures args.Some? ==> c.args == args.value
  {
    var c := DriverCall(Rewrite(sql), if args.None? then [] else args.value);
    if '%' in sql then c
    else
      RewriteRoundTrip(sql);
      MarkersOfRewrite(sql);
      c
  }

  /** `select(sql, args, size)`: the oracle's rows, cut to the first `size`
      when a size is given (`fetchmany`); `size == 0` stands for Python's
      `None` (`fetchall`). */
  function Select(db: DriverCall -> seq<Row>, sql: string, args: Option<seq<Value>>, size: nat): (rs: seq<Row>)
    ensures size == 0 ==> rs == db(Prepare(sql, args))
    ensures var all := db(Prepare(sql, args));
      size > 0 ==> rs == all[..if |all| < size then |all| else size]
  {
    var all := db(Prepare(sql, args));
    if size > 0 && |all| > size then all[..size] else all
  }

  /** `execute(sql, args)`: the affected-row count the oracle reports. */
  function Execute(db: DriverCall -> int, sql: string, args: seq<Value>): (n: int)
    ensures n == db(DriverCall(Rewrite(sql), args))
  {
    db(Prepare(sql, Some(args)))
  }
}
