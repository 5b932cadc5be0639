/**
 * The token-usage counters of both programs: four dictionaries
 * `{'input', 'output', 'cache_write', 'cache_read'}`. `input` and `output`
 * accumulate; the two cache fields hold the latest reported values. A missing
 * dictionary key (main.py's reset keeps only `input` and `output`) is `None`.
 */
module Tokens {
  import opened Outcomes

  /** The `usage` a model reply reports. */
  datatype Usage = Usage(inputTokens: nat, outputTokens: nat, cacheCreation: nat, cacheRead: nat)

  datatype TokenCounter = TokenCounter(input: int, output: int, cacheWrite: Option<int>, cacheRead: Option<int>)

  /** `{'input': 0, 'output': 0, 'cache_write': 0, 'cache_read': 0}` */
  const Zeroed := TokenCounter(0, 0, Some(0), Some(0))

  /** `{'input': 0, 'output': 0}`: the counter main.py's reset installs. */
  const InputOutputOnly := TokenCounter(0, 0, None, None)

  /** One successful model call: `+=` on input and output, `=` on the cache fields. */
  function Record(c: TokenCounter, u: Usage): (r: TokenCounter)
    ensures r.input >= c.input && r.output >= c.output
    ensures r.cacheWrite.Some? && r.cacheRead.Some?
  {
    TokenCounter(c.input + u.inputTokens, c.output + u.outputTokens, Some(u.cacheCreation), Some(u.cacheRead))
  }

  /** A run of successful calls, oldest first. */
  function RecordAll(c: TokenCounter, us: seq<Usage>): TokenCounter
    decreases |us|
  {
    if us == [] then c else RecordAll(Record(c, us[0]), us[1..])
  }

  function SumInput(us: seq<Usage>): nat {
    if us == [] then 0 else us[0].inputTokens + SumInput(us[1..])
  }

  function SumOutput(us: seq<Usage>): nat {
    if us == [] then 0 else us[0].outputTokens + SumOutput(us[1..])
  }

  /**
   * After any run of calls, input and output are the starting values plus the
   * totals reported, and the cache fields are those of the last call.
   */
  lemma {:induction false} RecordAllTotals(c: TokenCounter, us: seq<Usage>)
    ensures RecordAll(c, us).input == c.input + SumInput(us)
    ensures RecordAll(c, us).output == c.output + SumOutput(us)
    ensures us != [] ==>
      && RecordAll(c, us).cacheWrite == Some(us[|us| - 1].cacheCreation)
      && RecordAll(c, us).cacheRead == Some(us[|us| - 1].cacheRead)
    ensures us == [] ==> RecordAll(c, us) == c
    decreases |us|
  {
    if us != [] {
      RecordAllTotals(Record(c, us[0]), us[1..]);
    }
  }

  /** Two calls: the sums of input and output, the cache fields of the second. */
  lemma TwoCalls(c: TokenCounter, u1: Usage, u2: Usage)
    ensures var r := Record(Record(c, u1), u2);
      && r.input == c.input + u1.inputTokens + u2.inputTokens
      && r.output == c.output + u1.outputTokens + u2.outputTokens
      && r.cacheWrite == Some(u2.cacheCreation) && r.cacheRead == Some(u2.cacheRead)
  {
    var us := [u1, u2];
    RecordAllTotals(c, us);
    assert us[1..] == [u2] && [u2][1..] == [];
  }

  /** A call after main.py's reset restores all four keys. */
  lemma RecordAfterInputOutputReset(u: Usage)
    ensures Record(InputOutputOnly, u) == Record(Zeroed, u)
  {
  }
}
