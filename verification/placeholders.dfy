/** The placeholder list written into the INSERT template
    (`create_args_string`, www/orm.py). */
module Placeholders {
  import opened Values
  import opened SqlText

  /** `create_args_string(num)` as written. Its `return` sits inside the
      loop body (defect kept on purpose), so the loop stops after one
      iteration: any positive count yields the single placeholder `"?"`,
      and a count of zero or less never enters the loop and yields None. */
  function ArgsString(num: int): (r: Option<string>)
    ensures num >= 1 ==> r == Some("?")
    ensures num < 1 ==> r == None
  {
    if num < 1 then None else Some(Join(",", ["?"]))
  }

  /** The loop itself: `L` gets one `"?"` and the join is returned at once. */
  method CreateArgsString(num: int) returns (r: Option<string>)
    ensures r == ArgsString(num)
  {
    var l: seq<string> := [];
    for n := 0 to if num < 0 then 0 else num
      invariant n == 0 && l == []
    {
      l := l + ["?"];
      return Some(Join(",", l));
    }
    return None;
  }

  /** `n` copies of `s`. */
  function Repeat(s: string, n: nat): (r: seq<string>)
    ensures |r| == n
  {
    if n == 0 then [] else [s] + Repeat(s, n - 1)
  }

  /** The comma-joined list of `n` placeholders that an INSERT of `n`
      columns binds, i.e. what the loop builds had it run to the end. */
  function CommaPlaceholders(n: nat): string {
    Join(",", Repeat("?", n))
  }

  lemma {:induction false} RepeatOccurrences(n: nat)
    ensures Occurrences('?', Repeat("?", n)) == n
  {
    if n > 0 {
      RepeatOccurrences(n - 1);
      assert Repeat("?", n)[1..] == Repeat("?", n - 1);
    }
  }

  /** The full list carries exactly one placeholder per column. */
  lemma CommaPlaceholdersCount(n: nat)
    ensures Count('?', CommaPlaceholders(n)) == n
  {
    JoinCount('?', ",", Repeat("?", n));
    RepeatOccurrences(n);
  }

  /** What the early return costs: for two or more columns the string
      written into the template is the one-column list, not the `num`-column
      list, and carries fewer placeholders than columns. */
  lemma ArgsStringShort(num: int)
    requires num >= 2
    ensures ArgsString(num) == Some(CommaPlaceholders(1))
    ensures ArgsString(num) != Some(CommaPlaceholders(num))
    ensures Count('?', ArgsString(num).value) == 1 < num
  {
  }
}
