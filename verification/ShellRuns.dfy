/** Which commands of a chain run, said with the operators as they are typed. */
module ShellRuns {
  import opened Basics
  import opened Text
  import opened ShellChain
  import opened ShellRoundTrip
  import opened ShellQuotes
  import opened ShellExecutor

  /** After a segment that ran the next one runs unless it follows && and that failed, or || and that succeeded. */
  lemma NextRunsExactlyWhen(list: seq<Segment>, runs: seq<Run>, run: Runner, k: nat)
    requires ChainOk(list, runs, run) && k < |runs| && k + 1 < |list|
    ensures k + 1 < |runs| <==>
            !(list[k + 1].op.And? && runs[k].result.returncode != 0) && !(list[k + 1].op.Or? && runs[k].result.returncode == 0)
    ensures runs[k].result == run(list[k].text, runs[k].stdin)
  {
    assert RunOk(list, runs, run, k);
    if k + 1 < |runs| {
      assert RunOk(list, runs, run, k + 1);
    }
  }

  /** The first segment runs, except behind a leading ||: the return code before it counts as success. */
  lemma FirstRunsExactlyWhen(list: seq<Segment>, runs: seq<Run>, run: Runner)
    requires ChainOk(list, runs, run) && list != []
    ensures runs != [] <==> !list[0].op.Or?
    ensures runs != [] ==> runs[0] == Run(None, run(list[0].text, None))
  {
    if runs != [] {
      assert RunOk(list, runs, run, 0);
    }
  }

  /** A text without an operator outside quotes that is not blank and does not end in an ampersand. */
  predicate IsCommand(items: seq<Item>)
  {
    Quiet(items) && Trim(Written(items), PY_SPACE) != [] && items != [] && items[|items| - 1] != Bare('&')
  }

  lemma TwoSegments(a: seq<Item>, op: Op, b: seq<Item>)
    requires IsCommand(a) && IsCommand(b) && op != NoOp
    ensures Parse(Written(a) + (OpText(op) + Written(b)))
            == [Segment(Trim(Written(a), PY_SPACE), NoOp), Segment(Trim(Written(b), PY_SPACE), op)]
  {
    QuietStart(b);
    CutsAtTheOperator(a, op, Written(b));
    OperatorGoesWithTheNext(op, Written(b));
    QuietIsOneSegment(b);
  }

  lemma QuietStart(b: seq<Item>)
    requires Quiet(b)
    ensures Written(b) == [] || Written(b)[0] != '|'
  {
  }

  lemma TwoRuns(a: seq<Item>, op: Op, b: seq<Item>, runs: seq<Run>, run: Runner)
    requires IsCommand(a) && IsCommand(b) && op != NoOp
    ensures ChainOk(Parse(Written(a) + (OpText(op) + Written(b))), runs, run) ==>
              var code := run(Trim(Written(a), PY_SPACE), None).returncode;
              |runs| == if (op.And? && code != 0) || (op.Or? && code == 0) then 1 else 2
  {
    TwoSegments(a, op, b);
    var list := Parse(Written(a) + (OpText(op) + Written(b)));
    if ChainOk(list, runs, run) {
      FirstRunsExactlyWhen(list, runs, run);
      NextRunsExactlyWhen(list, runs, run, 0);
    }
  }

  /** `a && b` runs b exactly when a succeeds. */
  lemma AndRunsOnSuccess(a: seq<Item>, b: seq<Item>, runs: seq<Run>, run: Runner)
    requires IsCommand(a) && IsCommand(b) && ChainOk(Parse(Written(a) + ("&&" + Written(b))), runs, run)
    ensures |runs| == if run(Trim(Written(a), PY_SPACE), None).returncode == 0 then 2 else 1
  {
    assert OpText(And) == "&&";
    TwoRuns(a, And, b, runs, run);
  }

  /** `a || b` runs b exactly when a fails. */
  lemma OrRunsOnFailure(a: seq<Item>, b: seq<Item>, runs: seq<Run>, run: Runner)
    requires IsCommand(a) && IsCommand(b) && ChainOk(Parse(Written(a) + ("||" + Written(b))), runs, run)
    ensures |runs| == if run(Trim(Written(a), PY_SPACE), None).returncode == 0 then 1 else 2
  {
    assert OpText(Or) == "||";
    TwoRuns(a, Or, b, runs, run);
  }

  /** Behind a semicolon, a new line or a pipe b always runs. */
  lemma OthersRunBoth(a: seq<Item>, mark: char, b: seq<Item>, runs: seq<Run>, run: Runner)
    requires mark in {';', '\n', '|'} && IsCommand(a) && IsCommand(b)
    requires ChainOk(Parse(Written(a) + ([mark] + Written(b))), runs, run)
    ensures |runs| == 2
  {
    TwoRuns(a, if mark == ';' then Semi else if mark == '|' then Pipe else Newline, b, runs, run);
  }
}
