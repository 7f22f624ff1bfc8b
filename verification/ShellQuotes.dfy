/** Where a command is cut, said with the characters themselves: at every operator outside quotes and nowhere else. */
module ShellQuotes {
  import opened Text
  import opened ShellChain
  import opened ShellRoundTrip

  // ---------- without quotes ----------

  predicate NoQuotes(s: string)
  {
    forall i :: 0 <= i < |s| ==> s[i] != '\'' && s[i] != '"'
  }

  /** None of the operators occurs anywhere. */
  predicate NoOperators(s: string)
  {
    && (forall i :: 0 <= i < |s| ==> s[i] != ';' && s[i] != '\n' && s[i] != '|')
    && (forall i :: 0 <= i < |s| - 1 ==> !(s[i] == '&' && s[i + 1] == '&'))
  }

  lemma {:induction false} CleanHasNoOperators(s: string)
    requires NoQuotes(s)
    ensures Clean(Plain, s) <==> NoOperators(s)
    decreases |s|
  {
    if s != [] {
      CleanHasNoOperators(s[1..]);
      assert NoOperators(s) <==> OpOf(s) == NoOp && NoOperators(s[1..]) by {
        assert forall i :: 0 < i < |s| ==> s[i] == s[1..][i - 1];
      }
    }
  }

  lemma {:induction false} PiecesHaveNoQuotes(s: string, buf: string, op: Op)
    requires NoQuotes(s) && NoQuotes(buf)
    ensures forall i :: 0 <= i < |Lex(s, Plain, buf, op)| ==> NoQuotes(Lex(s, Plain, buf, op)[i].raw)
    decreases |s|
  {
    if s == [] {
    } else if OpOf(s) != NoOp {
      PiecesHaveNoQuotes(s[Width(OpOf(s))..], [], OpOf(s));
    } else {
      PiecesHaveNoQuotes(s[1..], buf + [s[0]], op);
    }
  }

  lemma TrimHasNoQuotes(s: string)
    requires NoQuotes(s)
    ensures NoQuotes(Trim(s, PY_SPACE))
  {
    var pre, post := TrimSplits(s, PY_SPACE);
    var t := Trim(s, PY_SPACE);
    forall i | 0 <= i < |t|
      ensures t[i] != '\'' && t[i] != '"'
    {
      assert s[|pre| + i] == t[i];
    }
  }

  lemma {:induction false} SegmentsHaveNoQuotes(pieces: seq<Piece>)
    requires forall i :: 0 <= i < |pieces| ==> NoQuotes(pieces[i].raw)
    ensures forall i :: 0 <= i < |Keep(pieces)| ==> NoQuotes(Keep(pieces)[i].text)
  {
    if pieces != [] {
      TrimHasNoQuotes(pieces[0].raw);
      assert forall i :: 0 <= i < |pieces[1..]| ==> pieces[1..][i] == pieces[i + 1];
      SegmentsHaveNoQuotes(pieces[1..]);
    }
  }

  /** In a command without quotes every operator cuts: none is left in the text of a segment. */
  lemma NoOperatorIsLeft(c: string, k: nat)
    requires NoQuotes(c) && k < |Parse(c)|
    ensures NoOperators(Parse(c)[k].text)
  {
    ParseIsOk(c);
    PiecesHaveNoQuotes(c, [], NoOp);
    SegmentsHaveNoQuotes(Lex(c, Plain, [], NoOp));
    CleanHasNoOperators(Parse(c)[k].text);
  }

  // ---------- with quotes ----------

  /** A character outside quotes, or a quoted text with its marks. */
  datatype Item = Bare(c: char) | Quoted(mark: char, body: string)

  function Written(items: seq<Item>): string
  {
    if items == [] then []
    else (if items[0].Bare? then [items[0].c] else [items[0].mark] + (items[0].body + [items[0].mark])) + Written(items[1..])
  }

  /** Quotes are closed, and outside of them there is no operator. */
  predicate Quiet(items: seq<Item>)
  {
    && (forall i :: 0 <= i < |items| ==>
          match items[i]
          case Bare(c) => c !in {'\'', '"', ';', '\n', '|'}
          case Quoted(mark, body) => mark in {'\'', '"'} && mark !in body)
    && (forall i :: 0 <= i < |items| - 1 ==> !(items[i] == Bare('&') && items[i + 1] == Bare('&')))
  }

  lemma QuotedIsClean(mark: char, body: string, rest: string)
    requires mark in {'\'', '"'} && mark !in body && Clean(Plain, rest) && After(Plain, rest) == Plain
    ensures Clean(Plain, [mark] + (body + [mark]) + rest) && After(Plain, [mark] + (body + [mark]) + rest) == Plain
  {
    var q := if mark == '\'' then Single else Double;
    InsideQuotes(q, mark, body);
    var s := [mark] + (body + [mark]) + rest;
    assert s[1..] == body + [mark] + rest;
    CleanThen(q, body + [mark], rest);
    AfterAppend(q, body + [mark], rest);
  }

  /** A closing quote completes no operator, whatever follows. */
  lemma {:induction false} CleanThen(q: Quote, s: string, rest: string)
    requires Clean(q, s) && Clean(After(q, s), rest) && s != [] && s[|s| - 1] != '&'
    ensures Clean(q, s + rest)
    decreases |s|
  {
    assert (s + rest)[1..] == s[1..] + rest;
    if |s| == 1 {
      assert s[1..] == [] && s[1..] + rest == rest && After(q, s) == Next(q, s[0]);
    } else {
      CleanThen(Next(q, s[0]), s[1..], rest);
    }
  }

  lemma {:induction false} QuietIsClean(items: seq<Item>)
    requires Quiet(items)
    ensures Clean(Plain, Written(items)) && After(Plain, Written(items)) == Plain
    ensures items != [] ==> Written(items) != []
    ensures items != [] && Written(items)[0] == '&' ==> items[0] == Bare('&')
  {
    if items != [] {
      var rest := items[1..];
      assert forall i :: 0 <= i < |rest| ==> rest[i] == items[i + 1];
      QuietIsClean(rest);
      match items[0]
      case Bare(c) =>
        assert Written(items)[0] == c && Written(items)[1..] == Written(rest);
        assert rest != [] ==> items[1] == rest[0];
        assert Next(Plain, c) == Plain && OpOf(Written(items)) == NoOp;
      case Quoted(mark, body) => QuotedIsClean(mark, body, Written(rest));
    }
  }

  lemma {:induction false} LastWritten(items: seq<Item>)
    requires Quiet(items) && items != []
    ensures Written(items) != [] && (Written(items)[|Written(items)| - 1] == '&' ==> items[|items| - 1] == Bare('&'))
  {
    var rest := items[1..];
    assert forall i :: 0 <= i < |rest| ==> rest[i] == items[i + 1];
    if rest == [] {
      assert Written(rest) == [];
    } else {
      LastWritten(rest);
    }
  }

  /** The operator is not the beginning or the end of a longer run of its characters. */
  predicate Stands(items: seq<Item>, op: Op, b: string)
  {
    && op != NoOp && (op.Pipe? ==> b == [] || b[0] != '|')
    && (op.And? && items != [] ==> items[|items| - 1] != Bare('&'))
  }

  lemma OperatorStarts(op: Op, b: string, buf: string, before: Op)
    requires Stands([], op, b)
    ensures Lex(OpText(op) + b, Plain, buf, before) == [Piece(before, buf)] + Lex(b, Plain, [], op)
  {
    assert OpOf(OpText(op) + b) == op;
    assert (OpText(op) + b)[Width(op)..] == b;
  }

  lemma ReadUpToTheOperator(items: seq<Item>, op: Op, b: string)
    requires Quiet(items) && Stands(items, op, b)
    ensures Lex(Written(items) + (OpText(op) + b), Plain, [], NoOp) == [Piece(NoOp, Written(items))] + Lex(b, Plain, [], op)
  {
    QuietIsClean(items);
    if items != [] {
      LastWritten(items);
    }
    LexRun(Written(items), OpText(op) + b, Plain, [], NoOp);
    assert [] + Written(items) == Written(items);
    OperatorStarts(op, b, Written(items), NoOp);
  }

  lemma OnlyTheOperator(op: Op, b: string)
    requires Stands([], op, b)
    ensures Parse(OpText(op) + b) == Keep(Lex(b, Plain, [], op))
  {
    OperatorStarts(op, b, [], NoOp);
    KeepFirst(Piece(NoOp, []), Lex(b, Plain, [], op));
    EmptyPiece(NoOp);
  }

  /**
   * Cutting at the first operator: what stands in front of it is the first segment, unless it is blank, and the rest is
   * parsed on its own.
   */
  lemma CutsAtTheOperator(items: seq<Item>, op: Op, b: string)
    requires Quiet(items) && Stands(items, op, b)
    ensures var a := Trim(Written(items), PY_SPACE);
            Parse(Written(items) + (OpText(op) + b)) == (if a == [] then [] else [Segment(a, NoOp)]) + Parse(OpText(op) + b)
  {
    ReadUpToTheOperator(items, op, b);
    KeepFirst(Piece(NoOp, Written(items)), Lex(b, Plain, [], op));
    OnlyTheOperator(op, b);
  }

  /** Scanning does not look at the operator in front. */
  lemma {:induction false} OperatorIsCarried(s: string, q: Quote, buf: string, op: Op, other: Op)
    ensures Lex(s, q, buf, op)[1..] == Lex(s, q, buf, other)[1..] && Lex(s, q, buf, op)[0].raw == Lex(s, q, buf, other)[0].raw
    ensures Lex(s, q, buf, op)[0].op == op
    decreases |s|
  {
    if s != [] && !(q.Plain? && OpOf(s) != NoOp) {
      OperatorIsCarried(s[1..], Next(q, s[0]), buf + [s[0]], op, other);
    }
  }

  /** The operator belongs to the segment that follows it, unless another operator comes first. */
  lemma OperatorGoesWithTheNext(op: Op, b: string)
    requires Stands([], op, b)
    ensures Parse(OpText(op) + b) ==
            if Parse(b) != [] && Parse(b)[0].op == NoOp then [Segment(Parse(b)[0].text, op)] + Parse(b)[1..] else Parse(b)
  {
    OnlyTheOperator(op, b);
    OperatorIsCarried(b, Plain, [], op, NoOp);
    LaterPiecesHaveOperators(b, Plain, [], NoOp);
    var pieces := Lex(b, Plain, [], NoOp);
    assert forall i :: 0 <= i < |pieces[1..]| ==> pieces[1..][i] == pieces[i + 1];
    KeepKeepsOperators(pieces[1..]);
    KeepFirst(pieces[0], pieces[1..]);
    assert [pieces[0]] + pieces[1..] == pieces;
    KeepFirst(Piece(op, pieces[0].raw), pieces[1..]);
    assert [Piece(op, pieces[0].raw)] + pieces[1..] == Lex(b, Plain, [], op);
  }

  /** A text without an operator outside quotes is one segment, or none when it is blank. */
  lemma QuietIsOneSegment(items: seq<Item>)
    requires Quiet(items)
    ensures var a := Trim(Written(items), PY_SPACE);
            Parse(Written(items)) == if a == [] then [] else [Segment(a, NoOp)]
  {
    var a := Written(items);
    QuietIsClean(items);
    LexRun(a, [], Plain, [], NoOp);
    assert a + [] == a && [] + a == a;
    LexEnd(Plain, a, NoOp);
  }

  lemma ReadUnclosed(a: string, mark: char, body: string)
    requires Clean(Plain, a) && After(Plain, a) == Plain && mark in {'\'', '"'} && mark !in body
    ensures Lex(a + ([mark] + body), Plain, [], NoOp) == [Piece(NoOp, a + ([mark] + body))]
  {
    var q := if mark == '\'' then Single else Double;
    LexRun(a, [mark] + body, Plain, [], NoOp);
    OpensQuote(q, mark, body, a);
    InsideIsRead(q, mark, body, a + [mark]);
    assert a + [mark] + body == a + ([mark] + body);
  }

  lemma OpensQuote(q: Quote, mark: char, body: string, buf: string)
    requires (q.Single? && mark == '\'') || (q.Double? && mark == '"')
    ensures Lex([mark] + body, Plain, [] + buf, NoOp) == Lex(body, q, buf + [mark], NoOp)
  {
    assert [] + buf == buf && ([mark] + body)[1..] == body;
  }

  /** A quote that is never closed takes everything behind it into the segment. */
  lemma UnclosedQuoteTakesTheRest(items: seq<Item>, mark: char, body: string)
    requires Quiet(items) && mark in {'\'', '"'} && mark !in body
    ensures var s := Written(items) + ([mark] + body);
            Parse(s) == [Segment(Trim(s, PY_SPACE), NoOp)]
  {
    QuietIsClean(items);
    UnclosedIsOneSegment(Written(items), mark, body);
  }

  lemma UnclosedIsOneSegment(a: string, mark: char, body: string)
    requires Clean(Plain, a) && After(Plain, a) == Plain && mark in {'\'', '"'} && mark !in body
    ensures Parse(a + ([mark] + body)) == [Segment(Trim(a + ([mark] + body), PY_SPACE), NoOp)]
  {
    var s := a + ([mark] + body);
    ReadUnclosed(a, mark, body);
    MarkIsNoSpace(mark);
    assert s[|a|] == mark;
    NotBlank(s, |a|);
    KeepOne(s);
  }

  lemma KeepOne(s: string)
    requires Trim(s, PY_SPACE) != []
    ensures Keep([Piece(NoOp, s)]) == [Segment(Trim(s, PY_SPACE), NoOp)]
  {
    KeepFirst(Piece(NoOp, s), []);
    assert [Piece(NoOp, s)] + [] == [Piece(NoOp, s)];
  }

  lemma MarkIsNoSpace(mark: char)
    requires mark in {'\'', '"'}
    ensures mark !in PY_SPACE
  {
  }

  lemma {:induction false} InsideIsRead(q: Quote, mark: char, body: string, buf: string)
    requires (q.Single? && mark == '\'') || (q.Double? && mark == '"')
    requires mark !in body
    ensures Lex(body, q, buf, NoOp) == Lex([], q, buf + body, NoOp)
    decreases |body|
  {
    if body == [] {
      assert buf + body == buf;
    } else {
      InsideIsRead(q, mark, body[1..], buf + [body[0]]);
      assert buf + [body[0]] + body[1..] == buf + body;
    }
  }

  lemma NotBlank(s: string, i: nat)
    requires i < |s| && s[i] !in PY_SPACE
    ensures Trim(s, PY_SPACE) != []
  {
    var pre, post := TrimSplits(s, PY_SPACE);
    assert forall j :: 0 <= j < |pre| ==> s[j] == pre[j];
    assert forall j :: 0 <= j < |post| ==> s[|s| - |post| + j] == post[j];
  }

  /** What comes after the quiet beginning of a command. */
  datatype Tail = Nothing | Operator(op: Op, after: string) | Unclosed(mark: char, body: string)

  function TailText(tail: Tail): string
  {
    match tail
    case Nothing => []
    case Operator(op, after) => OpText(op) + after
    case Unclosed(mark, body) => [mark] + body
  }

  predicate Splits(c: string, items: seq<Item>, tail: Tail)
  {
    && Quiet(items) && c == Written(items) + TailText(tail)
    && match tail
       case Nothing => true
       case Operator(op, after) => Stands(items, op, after)
       case Unclosed(mark, body) => mark in {'\'', '"'} && mark !in body
  }

  lemma Prepend(item: Item, c: string, items: seq<Item>, tail: Tail)
    requires Splits(c, items, tail)
    requires match item
             case Bare(x) => x !in {'\'', '"', ';', '\n', '|'} && (x == '&' && c != [] ==> c[0] != '&')
             case Quoted(mark, body) => mark in {'\'', '"'} && mark !in body
    ensures Splits(Written([item]) + c, [item] + items, tail)
  {
    var all := [item] + items;
    assert all[1..] == items && [item][1..] == [];
    assert Written([item]) + c == Written(all) + TailText(tail);
    QuietIsClean(items);
    assert items != [] && items[0] == Bare('&') ==> c != [] && c[0] == '&';
    forall i | 0 <= i < |all| - 1
      ensures !(all[i] == Bare('&') && all[i + 1] == Bare('&'))
    {
      assert i > 0 ==> all[i] == items[i - 1] && all[i + 1] == items[i];
    }
    assert tail.Operator? && tail.op.And? && items == [] ==> c != [] && c[0] == '&';
  }

  lemma {:induction false} FindMark(mark: char, s: string) returns (i: nat)
    ensures i <= |s| && mark !in s[..i] && (i < |s| ==> s[i] == mark)
  {
    if s == [] || s[0] == mark {
      i := 0;
    } else {
      var j := FindMark(mark, s[1..]);
      i := j + 1;
      assert s[..i] == [s[0]] + s[1..][..j];
    }
  }

  lemma PrependQuoted(mark: char, body: string, rest: string, items: seq<Item>, tail: Tail)
    requires mark in {'\'', '"'} && mark !in body && Splits(rest, items, tail)
    ensures Splits([mark] + (body + [mark]) + rest, [Quoted(mark, body)] + items, tail)
  {
    Prepend(Quoted(mark, body), rest, items, tail);
    assert [Quoted(mark, body)][1..] == [];
    assert Written([Quoted(mark, body)]) == [mark] + (body + [mark]);
  }

  lemma QuotedPart(c: string, i: nat)
    requires i < |c| - 1 && c[i + 1] == c[0]
    ensures c == [c[0]] + (c[1..][..i] + [c[0]]) + c[i + 2..]
  {
  }

  lemma PrependBare(c: string, items: seq<Item>, tail: Tail) returns (all: seq<Item>)
    requires c != [] && c[0] != '\'' && c[0] != '"' && OpOf(c) == NoOp && Splits(c[1..], items, tail)
    ensures Splits(c, all, tail)
  {
    Prepend(Bare(c[0]), c[1..], items, tail);
    assert [Bare(c[0])][1..] == [];
    assert Written([Bare(c[0])]) + c[1..] == c;
    all := [Bare(c[0])] + items;
  }

  lemma AtOperator(c: string)
    requires OpOf(c) != NoOp
    ensures Splits(c, [], Operator(OpOf(c), c[Width(OpOf(c))..]))
  {
    OpTextStarts(c);
  }

  /** Every command is of one of these kinds, so what is said above about each of them says how every command is cut. */
  lemma {:induction false} EveryCommandSplits(c: string) returns (items: seq<Item>, tail: Tail)
    ensures Splits(c, items, tail)
    decreases |c|
  {
    if c == [] {
      items, tail := [], Nothing;
    } else if OpOf(c) != NoOp {
      items, tail := [], Operator(OpOf(c), c[Width(OpOf(c))..]);
      AtOperator(c);
    } else if c[0] == '\'' || c[0] == '"' {
      var i := FindMark(c[0], c[1..]);
      if i == |c| - 1 {
        items, tail := [], Unclosed(c[0], c[1..]);
        assert c[1..][..i] == c[1..];
      } else {
        items, tail := EveryCommandSplits(c[i + 2..]);
        PrependQuoted(c[0], c[1..][..i], c[i + 2..], items, tail);
        QuotedPart(c, i);
        items := [Quoted(c[0], c[1..][..i])] + items;
      }
    } else {
      items, tail := EveryCommandSplits(c[1..]);
      items := PrependBare(c, items, tail);
    }
  }
}
