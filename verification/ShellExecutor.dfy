/** Running a chain segment by segment, and taking the redirections out of one segment. */
module ShellExecutor {
  import opened Basics
  import opened ShellChain

  /** What running one segment gave: its return code, whether it failed to run, and its raw output if there is one. */
  datatype Result = Result(returncode: int, error: bool, stdout: Option<Id>)

  /** The executor as an unknown: the result of a segment given what it is fed. */
  type Runner = (string, Option<Id>) -> Result

  const MAX_SEGMENTS := 20

  /** The guard before a segment: && needs success, || needs failure, the others need nothing. */
  predicate Guard(op: Op, last: int)
  {
    (op.And? ==> last == 0) && (op.Or? ==> last != 0)
  }

  /** What a segment leaves for the next one: only a segment that follows a pipe keeps its output. */
  function Kept(op: Op, r: Result): Option<Id>
  {
    if op.Pipe? && !r.error then r.stdout else None
  }

  /** Run `k` says how segment `k` was called and what came out. */
  datatype Run = Run(stdin: Option<Id>, result: Result)

  /** Return code and kept output before segment `k`. */
  function CodeBefore(runs: seq<Run>, k: nat): int
    requires k <= |runs|
  {
    if k == 0 then 0 else runs[k - 1].result.returncode
  }

  function KeptBefore(list: seq<Segment>, runs: seq<Run>, k: nat): Option<Id>
    requires k <= |runs| && k <= |list|
  {
    if k == 0 then None else Kept(list[k - 1].op, runs[k - 1].result)
  }

  /** Segment `k` was allowed to run and was run on what the segment before it kept. */
  predicate RunOk(list: seq<Segment>, runs: seq<Run>, run: Runner, k: nat)
    requires k < |runs| && k < |list|
  {
    && Guard(list[k].op, CodeBefore(runs, k))
    && runs[k].stdin == (if list[k].op.Pipe? then KeptBefore(list, runs, k) else None)
    && runs[k].result == run(list[k].text, runs[k].stdin)
  }

  /** A prefix of the segments ran as it should. */
  predicate PrefixOk(list: seq<Segment>, runs: seq<Run>, run: Runner)
  {
    |runs| <= |list| && forall k :: 0 <= k < |runs| ==> RunOk(list, runs, run, k)
  }

  /** The chain ran as it should: a prefix of the segments, stopped by the first guard that failed. */
  predicate ChainOk(list: seq<Segment>, runs: seq<Run>, run: Runner)
  {
    && PrefixOk(list, runs, run)
    && (|runs| < |list| ==> !Guard(list[|runs|].op, CodeBefore(runs, |runs|)))
  }

  /** A chain of more than 20 segments is refused; otherwise the answer is the code of the last segment that ran. */
  method ExecShellChain(command: string, run: Runner) returns (code: int, refused: bool, runs: seq<Run>)
    ensures refused <==> |Parse(command)| > 20
    ensures refused ==> code == -1 && runs == []
    ensures !refused ==> ChainOk(Parse(command), runs, run) && code == CodeBefore(runs, |runs|)
  {
    var list := IterShellSegments(command);
    runs := [];
    if |list| > MAX_SEGMENTS {
      return -1, true, [];
    }
    refused, code := false, 0;
    var last: Option<Id> := None;
    var i := 0;
    while i < |list|
      invariant 0 <= i <= |list| && |runs| == i
      invariant PrefixOk(list, runs, run)
      invariant code == CodeBefore(runs, i) && last == KeptBefore(list, runs, i)
    {
      var op := list[i].op;
      if op == And && code != 0 {
        break;
      }
      if op == Or && code == 0 {
        break;
      }
      var stdin := if op == Pipe then last else None;
      var result := run(list[i].text, stdin);
      var next := Run(stdin, result);
      RunsExtend(list, runs, next, run);
      runs := runs + [next];
      last := if op == Pipe && !result.error then result.stdout else None;
      code := result.returncode;
      i := i + 1;
    }
  }

  lemma RunsExtend(list: seq<Segment>, runs: seq<Run>, r: Run, run: Runner)
    requires |runs| < |list| && PrefixOk(list, runs, run)
    requires Guard(list[|runs|].op, CodeBefore(runs, |runs|))
    requires r.stdin == if list[|runs|].op.Pipe? then KeptBefore(list, runs, |runs|) else None
    requires r.result == run(list[|runs|].text, r.stdin)
    ensures PrefixOk(list, runs + [r], run)
    ensures CodeBefore(runs + [r], |runs| + 1) == r.result.returncode
    ensures KeptBefore(list, runs + [r], |runs| + 1) ==
            if list[|runs|].op == Pipe && !r.result.error then r.result.stdout else None
  {
    forall k | 0 <= k <= |runs|
      ensures RunOk(list, runs + [r], run, k)
    {
      assert k < |runs| ==> RunOk(list, runs, run, k);
    }
  }

  /** A segment is fed only when it and the one before it both follow a pipe: the first stage of a pipe feeds nobody. */
  lemma FedExactlyWhen(list: seq<Segment>, runs: seq<Run>, run: Runner, k: nat)
    requires ChainOk(list, runs, run) && k < |runs|
    ensures runs[k].stdin.Some? <==>
            k > 0 && list[k].op.Pipe? && list[k - 1].op.Pipe? && !runs[k - 1].result.error && runs[k - 1].result.stdout.Some?
    ensures runs[k].stdin.Some? ==> runs[k].stdin == runs[k - 1].result.stdout
  {
    assert RunOk(list, runs, run, k);
  }

  /** A failed guard ends the whole chain: nothing after it runs, not even behind a semicolon. */
  lemma FailedGuardEndsTheChain(list: seq<Segment>, runs: seq<Run>, run: Runner, k: nat)
    requires ChainOk(list, runs, run) && k < |list|
    ensures k < |runs| <==> forall j :: 0 <= j <= k ==> j <= |runs| && Guard(list[j].op, CodeBefore(runs, j))
  {
    if k < |runs| {
      forall j | 0 <= j <= k
        ensures j <= |runs| && Guard(list[j].op, CodeBefore(runs, j))
      {
        assert RunOk(list, runs, run, j);
      }
    }
  }

  /** Two executions of the same segments with the same runner agree. */
  lemma {:induction false} RunsAgree(list: seq<Segment>, a: seq<Run>, b: seq<Run>, run: Runner, k: nat)
    requires ChainOk(list, a, run) && ChainOk(list, b, run) && k <= |a|
    ensures k <= |b| && a[..k] == b[..k]
  {
    if k > 0 {
      RunsAgree(list, a, b, run, k - 1);
      assert RunOk(list, a, run, k - 1);
      assert CodeBefore(a, k - 1) == CodeBefore(b, k - 1) by {
        assert k > 1 ==> a[..k - 1][k - 2] == b[..k - 1][k - 2];
      }
      assert k - 1 < |b|;
      assert RunOk(list, b, run, k - 1);
      assert KeptBefore(list, a, k - 1) == KeptBefore(list, b, k - 1) by {
        assert k > 1 ==> a[..k - 1][k - 2] == b[..k - 1][k - 2];
      }
      assert a[..k] == a[..k - 1] + [a[k - 1]] && b[..k] == b[..k - 1] + [b[k - 1]];
    }
  }

  // ---------- redirections ----------

  /** A word of a segment: one of the seven redirection operators, or anything else. */
  datatype Token = Redirect(kind: Id) | Word(text: Id)

  function CleanTokens(tokens: seq<Token>): (r: seq<Token>)
  {
    if tokens == [] then []
    else if tokens[0].Redirect? && |tokens| > 1 then CleanTokens(tokens[2..])
    else [tokens[0]] + CleanTokens(tokens[1..])
  }

  /** The pairs of operator and file name, in order. */
  function Pairs(tokens: seq<Token>): (r: seq<(Token, Token)>)
  {
    if tokens == [] then []
    else if tokens[0].Redirect? && |tokens| > 1 then [(tokens[0], tokens[1])] + Pairs(tokens[2..])
    else Pairs(tokens[1..])
  }

  /** A later redirection of the same kind replaces an earlier one. */
  function Targets(m: map<Token, Token>, pairs: seq<(Token, Token)>): map<Token, Token>
    decreases |pairs|
  {
    if pairs == [] then m else Targets(m[pairs[0].0 := pairs[0].1], pairs[1..])
  }

  /** The loop that shrinks the token list in place. */
  method ExtractRedirects(tokens: seq<Token>) returns (clean: seq<Token>, redirects: map<Token, Token>)
    ensures clean == CleanTokens(tokens) && redirects == Targets(map[], Pairs(tokens))
  {
    clean, redirects := tokens, map[];
    var i := 0;
    assert clean[..0] == [] && clean[0..] == tokens;
    while i < |clean|
      invariant 0 <= i <= |clean|
      invariant clean[..i] + CleanTokens(clean[i..]) == CleanTokens(tokens)
      invariant Targets(redirects, Pairs(clean[i..])) == Targets(map[], Pairs(tokens))
      decreases |clean| - i
    {
      var t := clean[i];
      ghost var rest := clean[i..];
      assert rest[0] == t;
      if t.Redirect? && i + 1 < |clean| {
        assert rest[1] == clean[i + 1] && rest[2..] == clean[i + 2..];
        PairsFirst(rest);
        redirects := redirects[t := clean[i + 1]];
        ghost var kept := clean[..i];
        clean := clean[..i] + clean[i + 2..];
        assert clean[..i] == kept && clean[i..] == rest[2..];
      } else {
        assert rest[1..] == clean[i + 1..];
        assert clean[..i] + ([t] + CleanTokens(rest[1..])) == clean[..i + 1] + CleanTokens(rest[1..]);
        i := i + 1;
      }
    }
    assert clean[i..] == [] && clean[..i] == clean;
  }

  lemma PairsFirst(tokens: seq<Token>)
    requires |tokens| > 1 && tokens[0].Redirect?
    ensures forall m: map<Token, Token> :: Targets(m, Pairs(tokens)) == Targets(m[tokens[0] := tokens[1]], Pairs(tokens[2..]))
  {
    assert Pairs(tokens)[1..] == Pairs(tokens[2..]);
  }

  /** Only the last word left can be a redirection operator: it had no file name. */
  lemma {:induction false} CleanHasNoRedirects(tokens: seq<Token>, i: nat)
    requires i + 1 < |CleanTokens(tokens)|
    ensures CleanTokens(tokens)[i].Word?
  {
    if tokens[0].Redirect? && |tokens| > 1 {
      CleanHasNoRedirects(tokens[2..], i);
    } else if i > 0 {
      CleanHasNoRedirects(tokens[1..], i - 1);
    }
  }

  /** Every pair is an operator and the word behind it. */
  lemma {:induction false} PairsAreRedirects(tokens: seq<Token>, i: nat)
    requires i < |Pairs(tokens)|
    ensures Pairs(tokens)[i].0.Redirect?
    ensures exists j :: 0 <= j < |tokens| - 1 && tokens[j] == Pairs(tokens)[i].0 && tokens[j + 1] == Pairs(tokens)[i].1
  {
    if tokens[0].Redirect? && |tokens| > 1 {
      if i > 0 {
        PairsAreRedirects(tokens[2..], i - 1);
        var j :| 0 <= j < |tokens[2..]| - 1 && tokens[2..][j] == Pairs(tokens)[i].0 && tokens[2..][j + 1] == Pairs(tokens)[i].1;
        assert tokens[j + 2] == tokens[2..][j] && tokens[j + 2 + 1] == tokens[2..][j + 1];
      } else {
        assert tokens[0 + 1] == Pairs(tokens)[0].1;
      }
    } else {
      PairsAreRedirects(tokens[1..], i);
      var j :| 0 <= j < |tokens[1..]| - 1 && tokens[1..][j] == Pairs(tokens)[i].0 && tokens[1..][j + 1] == Pairs(tokens)[i].1;
      assert tokens[j + 1] == tokens[1..][j] && tokens[j + 1 + 1] == tokens[1..][j + 1];
    }
  }

  /** Of several redirections of one kind the last one counts, and no other kind is redirected. */
  lemma {:induction false} LastRedirectionWins(m: map<Token, Token>, pairs: seq<(Token, Token)>, op: Token)
    ensures op in Targets(m, pairs) <==> op in m || exists i :: 0 <= i < |pairs| && pairs[i].0 == op
    ensures forall i :: 0 <= i < |pairs| && pairs[i].0 == op && (forall j :: i < j < |pairs| ==> pairs[j].0 != op) ==>
              Targets(m, pairs)[op] == pairs[i].1
    ensures op in m && (forall i :: 0 <= i < |pairs| ==> pairs[i].0 != op) ==> Targets(m, pairs)[op] == m[op]
    decreases |pairs|
  {
    if pairs != [] {
      var rest := pairs[1..];
      assert forall i :: 0 <= i < |rest| ==> rest[i] == pairs[i + 1];
      LastRedirectionWins(m[pairs[0].0 := pairs[0].1], rest, op);
      if exists i :: 0 <= i < |rest| && rest[i].0 == op {
        var i :| 0 <= i < |rest| && rest[i].0 == op;
        assert pairs[i + 1].0 == op;
      }
      forall i | 0 < i < |pairs|
        ensures pairs[i] == rest[i - 1]
      {
      }
    }
  }

  /** Extracting again finds nothing more. */
  lemma ExtractionIsIdempotent(tokens: seq<Token>)
    ensures CleanTokens(CleanTokens(tokens)) == CleanTokens(tokens) && Pairs(CleanTokens(tokens)) == []
  {
    var clean := CleanTokens(tokens);
    forall i: nat | i + 1 < |clean|
      ensures clean[i].Word?
    {
      CleanHasNoRedirects(tokens, i);
    }
    WordsStay(clean);
  }

  lemma {:induction false} WordsStay(tokens: seq<Token>)
    requires forall i: nat :: i + 1 < |tokens| ==> tokens[i].Word?
    ensures CleanTokens(tokens) == tokens && Pairs(tokens) == []
  {
    if tokens != [] {
      WordsStay(tokens[1..]);
    }
  }

  /** Where the tokens of a segment went: a word that stays, or an operator with its file name. */
  datatype Part = Remaining(word: Token) | Pair(op: Token, file: Token)

  function PartsOf(tokens: seq<Token>): (parts: seq<Part>)
  {
    if tokens == [] then []
    else if tokens[0].Redirect? && |tokens| > 1 then [Pair(tokens[0], tokens[1])] + PartsOf(tokens[2..])
    else [Remaining(tokens[0])] + PartsOf(tokens[1..])
  }

  function Flatten(parts: seq<Part>): seq<Token>
  {
    if parts == [] then []
    else (if parts[0].Remaining? then [parts[0].word] else [parts[0].op, parts[0].file]) + Flatten(parts[1..])
  }

  function KeptWords(parts: seq<Part>): seq<Token>
  {
    if parts == [] then [] else (if parts[0].Remaining? then [parts[0].word] else []) + KeptWords(parts[1..])
  }

  function PairsAmong(parts: seq<Part>): seq<(Token, Token)>
  {
    if parts == [] then [] else (if parts[0].Pair? then [(parts[0].op, parts[0].file)] else []) + PairsAmong(parts[1..])
  }

  /** No token is lost: the remaining words and the pairs, each in order, interleave to the tokens as they were. */
  lemma {:induction false} NoTokenIsLost(tokens: seq<Token>)
    ensures var parts := PartsOf(tokens);
            Flatten(parts) == tokens && KeptWords(parts) == CleanTokens(tokens) && PairsAmong(parts) == Pairs(tokens)
  {
    if tokens != [] {
      if tokens[0].Redirect? && |tokens| > 1 {
        var rest := tokens[2..];
        NoTokenIsLost(rest);
        assert PartsOf(tokens)[1..] == PartsOf(rest);
        assert tokens == [tokens[0], tokens[1]] + rest;
      } else {
        var rest := tokens[1..];
        NoTokenIsLost(rest);
        assert PartsOf(tokens)[1..] == PartsOf(rest);
        assert tokens == [tokens[0]] + rest;
      }
    }
  }
}
