/** Parsing loses nothing but white space, never splits inside quotes, and undoes printing. */
module ShellRoundTrip {
  import opened Basics
  import opened Text
  import opened ShellChain

  // ---------- nothing is lost ----------

  function Join(pieces: seq<Piece>): string
  {
    if pieces == [] then [] else OpText(pieces[0].op) + pieces[0].raw + Join(pieces[1..])
  }

  lemma JoinFirst(p: Piece, rest: seq<Piece>)
    ensures Join([p] + rest) == OpText(p.op) + p.raw + Join(rest)
  {
    assert ([p] + rest)[1..] == rest;
  }

  lemma OpTextStarts(s: string)
    ensures Width(OpOf(s)) <= |s| && s == OpText(OpOf(s)) + s[Width(OpOf(s))..]
  {
  }

  lemma Regroup(a: string, b: string, c: string, d: string)
    ensures a + b + (c + [] + d) == a + b + (c + d)
    ensures a + (b + c) + d == a + b + (c + d)
  {
  }

  /** The pieces and their operators, put together again, are the command. */
  lemma {:induction false} PiecesJoinBack(s: string, q: Quote, buf: string, op: Op)
    ensures Join(Lex(s, q, buf, op)) == OpText(op) + buf + s
    decreases |s|
  {
    if s == [] {
      JoinFirst(Piece(op, buf), []);
      assert [Piece(op, buf)] + [] == [Piece(op, buf)];
    } else if q.Plain? && OpOf(s) != NoOp {
      var next := s[Width(OpOf(s))..];
      PiecesJoinBack(next, Plain, [], OpOf(s));
      JoinFirst(Piece(op, buf), Lex(next, Plain, [], OpOf(s)));
      OpTextStarts(s);
      Regroup(OpText(op), buf, OpText(OpOf(s)), next);
    } else {
      PiecesJoinBack(s[1..], Next(q, s[0]), buf + [s[0]], op);
      Regroup(OpText(op), buf, [s[0]], s[1..]);
      assert [s[0]] + s[1..] == s;
    }
  }

  // ---------- no split inside quotes ----------

  /** The quote state after a text. */
  function After(q: Quote, s: string): Quote
    decreases |s|
  {
    if s == [] then q else After(Next(q, s[0]), s[1..])
  }

  /** No operator outside quotes. */
  predicate Clean(q: Quote, s: string)
    decreases |s|
  {
    s == [] || ((q.Plain? ==> OpOf(s) == NoOp) && Clean(Next(q, s[0]), s[1..]))
  }

  lemma {:induction false} AfterAppend(q: Quote, s: string, t: string)
    ensures After(q, s + t) == After(After(q, s), t)
    decreases |s|
  {
    if s == [] {
      assert s + t == t;
    } else {
      assert (s + t)[1..] == s[1..] + t;
      AfterAppend(Next(q, s[0]), s[1..], t);
    }
  }

  /** A clean text stays clean when a character is added that does not complete an operator. */
  lemma {:induction false} CleanAppend(q: Quote, s: string, t: string)
    requires Clean(q, s) && Clean(After(q, s), t) && (s != [] && t != [] ==> t[0] != '&')
    ensures Clean(q, s + t)
    decreases |s|
  {
    if s == [] {
      assert s + t == t;
    } else {
      assert (s + t)[1..] == s[1..] + t;
      CleanAppend(Next(q, s[0]), s[1..], t);
    }
  }

  lemma {:induction false} CleanPrefix(q: Quote, s: string, t: string)
    requires Clean(q, s + t)
    ensures Clean(q, s) && Clean(After(q, s), t)
    decreases |s|
  {
    if s == [] {
      assert s + t == t;
    } else {
      assert (s + t)[1..] == s[1..] + t;
      CleanPrefix(Next(q, s[0]), s[1..], t);
    }
  }

  /** The buffer of the scanner: clean, and about to stay so whatever comes next. */
  predicate CleanSoFar(buf: string, q: Quote, s: string)
  {
    Clean(Plain, buf) && After(Plain, buf) == q && (buf != [] && buf[|buf| - 1] == '&' && q.Plain? && s != [] ==> s[0] != '&')
  }

  predicate PiecesClean(pieces: seq<Piece>)
  {
    forall i :: 0 <= i < |pieces| ==> Clean(Plain, pieces[i].raw) && (i < |pieces| - 1 ==> After(Plain, pieces[i].raw).Plain?)
  }

  lemma {:induction false} CleanSnoc(q: Quote, s: string, c: char)
    requires Clean(q, s) && (After(q, s).Plain? ==> OpOf([c]) == NoOp)
    requires s != [] && s[|s| - 1] == '&' && After(q, s).Plain? ==> c != '&'
    ensures Clean(q, s + [c]) && After(q, s + [c]) == Next(After(q, s), c)
    decreases |s|
  {
    if s != [] {
      assert (s + [c])[1..] == s[1..] + [c];
      CleanSnoc(Next(q, s[0]), s[1..], c);
    }
  }

  /** Every cut is at an operator outside quotes: each piece is clean, and all but the last end outside quotes. */
  lemma {:induction false} LexIsClean(s: string, q: Quote, buf: string, op: Op)
    requires CleanSoFar(buf, q, s)
    ensures PiecesClean(Lex(s, q, buf, op))
    decreases |s|
  {
    if s == [] {
    } else if q.Plain? && OpOf(s) != NoOp {
      LexIsClean(s[Width(OpOf(s))..], Plain, [], OpOf(s));
    } else {
      assert OpOf([s[0]]) == NoOp || !q.Plain?;
      CleanSnoc(Plain, buf, s[0]);
      LexIsClean(s[1..], Next(q, s[0]), buf + [s[0]], op);
    }
  }

  // ---------- white space ----------

  predicate Blank(s: string)
  {
    AllSpace(s, PY_SPACE)
  }

  /** White space outside quotes is skipped without a trace. */
  lemma {:induction false} BlankKeepsQuote(q: Quote, s: string)
    requires Blank(s)
    ensures After(q, s) == q
    decreases |s|
  {
    if s != [] {
      BlankKeepsQuote(q, s[1..]);
    }
  }

  /** Trimming keeps a piece clean and ends in the same quote state. */
  lemma TrimKeepsClean(raw: string)
    requires Clean(Plain, raw)
    ensures Clean(Plain, Trim(raw, PY_SPACE)) && After(Plain, Trim(raw, PY_SPACE)) == After(Plain, raw)
  {
    var pre, post := TrimSplits(raw, PY_SPACE);
    var t := Trim(raw, PY_SPACE);
    assert raw == pre + (t + post);
    CleanPrefix(Plain, pre, t + post);
    BlankKeepsQuote(Plain, pre);
    CleanPrefix(Plain, t, post);
    AfterAppend(Plain, pre, t + post);
    AfterAppend(Plain, t, post);
    BlankKeepsQuote(After(Plain, t), post);
  }

  // ---------- printing ----------

  /** Each segment with its operator before it and a space on both sides. */
  function Print(list: seq<Segment>): string
  {
    if list == [] then [] else OpText(list[0].op) + Padded(list[0].text) + Print(list[1..])
  }

  function Padded(text: string): string
  {
    [' '] + text + [' ']
  }

  /** What the parser can return: trimmed, not empty, no operator outside quotes, and closed quotes except at the end. */
  predicate SegmentOk(x: Segment, last: bool)
  {
    x.text != [] && Trimmed(x.text, PY_SPACE) && Clean(Plain, x.text) && (last || After(Plain, x.text).Plain?)
  }

  /** Only the first segment may have no operator in front. */
  predicate ListOk(list: seq<Segment>)
  {
    forall i :: 0 <= i < |list| ==> SegmentOk(list[i], i == |list| - 1) && (i > 0 ==> list[i].op != NoOp)
  }

  /** A clean stretch is read into the buffer as a whole. */
  lemma {:induction false} LexRun(raw: string, rest: string, q: Quote, buf: string, op: Op)
    requires Clean(q, raw) && (raw != [] && raw[|raw| - 1] == '&' ==> rest == [] || rest[0] != '&')
    ensures Lex(raw + rest, q, buf, op) == Lex(rest, After(q, raw), buf + raw, op)
    decreases |raw|
  {
    if raw == [] {
      assert raw + rest == rest && buf + raw == buf;
    } else {
      assert (raw + rest)[0] == raw[0] && (raw + rest)[1..] == raw[1..] + rest;
      assert q.Plain? ==> OpOf(raw + rest) == NoOp;
      LexRun(raw[1..], rest, Next(q, raw[0]), buf + [raw[0]], op);
      assert buf + [raw[0]] + raw[1..] == buf + raw;
    }
  }

  lemma PaddedIsClean(text: string)
    requires Clean(Plain, text)
    ensures Clean(Plain, Padded(text)) && After(Plain, Padded(text)) == After(Plain, text)
  {
    assert Clean(Plain, [' ']) && After(Plain, [' ']) == Plain;
    CleanAppend(Plain, text, [' ']);
    AfterAppend(Plain, text, [' ']);
    assert Padded(text) == [' '] + (text + [' ']);
    assert Padded(text)[1..] == text + [' '];
  }

  lemma TrimUndoesPadding(text: string)
    requires Trimmed(text, PY_SPACE)
    ensures Trim(Padded(text), PY_SPACE) == text
  {
    TrimPadded([' '], text, [' '], PY_SPACE);
  }

  lemma LexAtOperator(op: Op, rest: string, buf: string, before: Op)
    requires op != NoOp && (rest != [] ==> rest[0] == ' ')
    ensures Lex(OpText(op) + rest, Plain, buf, before) == [Piece(before, buf)] + Lex(rest, Plain, [], op)
  {
    var s := OpText(op) + rest;
    assert OpOf(s) == op;
    assert s[Width(op)..] == rest;
  }

  /** The operator of the first printed segment ends the piece in the buffer. */
  lemma PrintedFirst(list: seq<Segment>, buf: string, before: Op)
    requires list != [] && list[0].op != NoOp
    ensures Keep(Lex(Print(list), Plain, buf, before))
            == SegmentOf(Piece(before, buf)) + Keep(Lex(Padded(list[0].text) + Print(list[1..]), Plain, [], list[0].op))
  {
    var x, rest := list[0], Padded(list[0].text) + Print(list[1..]);
    assert Print(list) == OpText(x.op) + rest;
    LexAtOperator(x.op, rest, buf, before);
    KeepFirst(Piece(before, buf), Lex(rest, Plain, [], x.op));
  }

  /** Reading the rest of a printed list, with the piece in front of it in the buffer. */
  lemma {:induction false} ParsePrinted(list: seq<Segment>, buf: string, before: Op)
    requires ListOk(list) && forall i :: 0 <= i < |list| ==> list[i].op != NoOp
    ensures Keep(Lex(Print(list), Plain, buf, before)) == SegmentOf(Piece(before, buf)) + list
    decreases |list|
  {
    if list == [] {
      LexEnd(Plain, buf, before);
    } else {
      PrintedFirst(list, buf, before);
      ParsePadded(list, list[0].op);
    }
  }

  lemma PaddedPiece(text: string, op: Op)
    requires text != [] && Trimmed(text, PY_SPACE)
    ensures SegmentOf(Piece(op, Padded(text))) == [Segment(text, op)]
  {
    TrimUndoesPadding(text);
  }

  lemma PaddedRun(text: string, rest: string, op: Op)
    requires Clean(Plain, text)
    ensures Lex(Padded(text) + rest, Plain, [], op) == Lex(rest, After(Plain, text), Padded(text), op)
  {
    PaddedIsClean(text);
    LexRun(Padded(text), rest, Plain, [], op);
    assert [] + Padded(text) == Padded(text);
  }

  lemma LexEnd(q: Quote, buf: string, op: Op)
    ensures Keep(Lex([], q, buf, op)) == SegmentOf(Piece(op, buf))
  {
    KeepFirst(Piece(op, buf), []);
    assert [Piece(op, buf)] + [] == [Piece(op, buf)];
  }

  /** Reading a printed list from its first padded segment on. */
  lemma {:induction false} ParsePadded(list: seq<Segment>, op: Op)
    requires list != [] && ListOk(list) && list[0].op == op
    ensures Keep(Lex(Padded(list[0].text) + Print(list[1..]), Plain, [], op)) == list
    decreases |list|, 0
  {
    var x, rest := list[0], list[1..];
    PaddedRun(x.text, Print(rest), op);
    PaddedPiece(x.text, op);
    if rest == [] {
      LexEnd(After(Plain, x.text), Padded(x.text), op);
      assert list == [x];
    } else {
      ParsePrinted(rest, Padded(x.text), op);
      assert list == [x] + rest;
    }
  }

  lemma EmptyPiece(op: Op)
    ensures SegmentOf(Piece(op, [])) == []
  {
  }

  lemma NothingParsesToNothing()
    ensures Parse([]) == []
  {
    LexEnd(Plain, [], NoOp);
    EmptyPiece(NoOp);
  }

  lemma PrintedWithOperator(list: seq<Segment>)
    requires ListOk(list) && list != [] && list[0].op != NoOp
    ensures Parse(Print(list)) == list
  {
    ParsePrinted(list, [], NoOp);
    EmptyPiece(NoOp);
    assert [] + list == list;
  }

  lemma PrintedWithoutOperator(list: seq<Segment>)
    requires ListOk(list) && list != [] && list[0].op == NoOp
    ensures Parse(Print(list)) == list
  {
    ParsePadded(list, NoOp);
    assert OpText(NoOp) + Padded(list[0].text) == Padded(list[0].text);
  }

  /** Printing and parsing: every list of trimmed, quote-closed segments without operators outside quotes comes back as it was. */
  lemma PrintThenParse(list: seq<Segment>)
    requires ListOk(list)
    ensures Parse(Print(list)) == list
  {
    if list == [] {
      NothingParsesToNothing();
    } else if list[0].op != NoOp {
      PrintedWithOperator(list);
    } else {
      PrintedWithoutOperator(list);
    }
  }

  lemma SegmentFromPiece(p: Piece, last: bool)
    requires Clean(Plain, p.raw) && (last || After(Plain, p.raw).Plain?)
    ensures |SegmentOf(p)| <= 1 && forall x :: x in SegmentOf(p) ==> SegmentOk(x, last) && x.op == p.op
  {
    TrimKeepsClean(p.raw);
    var pre, post := TrimSplits(p.raw, PY_SPACE);
  }

  lemma TailStaysOk(x: Segment, tail: seq<Segment>, i: nat)
    requires i < |tail| && ListOk(tail)
    ensures var list := [x] + tail;
            list[i + 1] == tail[i] && SegmentOk(list[i + 1], i + 1 == |list| - 1)
  {
  }

  lemma ListOkAppend(head: seq<Segment>, tail: seq<Segment>)
    requires |head| <= 1 && ListOk(tail) && (head != [] ==> SegmentOk(head[0], tail == []))
    requires head != [] ==> forall i :: 0 <= i < |tail| ==> tail[i].op != NoOp
    ensures ListOk(head + tail)
  {
    if head != [] {
      var list := [head[0]] + tail;
      assert head + tail == list;
      forall i | 0 < i < |list|
        ensures SegmentOk(list[i], i == |list| - 1) && list[i].op != NoOp
      {
        TailStaysOk(head[0], tail, i - 1);
      }
    } else {
      assert head + tail == tail;
    }
  }

  /** What is kept of clean pieces is a list the printer can print. */
  lemma {:induction false} KeepOk(pieces: seq<Piece>)
    requires PiecesClean(pieces) && forall i :: 0 < i < |pieces| ==> pieces[i].op != NoOp
    ensures ListOk(Keep(pieces))
    ensures pieces != [] && pieces[0].op != NoOp ==> forall i :: 0 <= i < |Keep(pieces)| ==> Keep(pieces)[i].op != NoOp
  {
    if pieces != [] {
      var rest := pieces[1..];
      assert forall i :: 0 <= i < |rest| ==> rest[i] == pieces[i + 1];
      KeepOk(rest);
      SegmentFromPiece(pieces[0], rest == []);
      ListOkAppend(SegmentOf(pieces[0]), Keep(rest));
    }
  }

  lemma {:induction false} LaterPiecesHaveOperators(s: string, q: Quote, buf: string, op: Op)
    ensures var pieces := Lex(s, q, buf, op);
            pieces[0].op == op && forall i :: 0 < i < |pieces| ==> pieces[i].op != NoOp
    decreases |s|
  {
    if s == [] {
    } else if q.Plain? && OpOf(s) != NoOp {
      LaterPiecesHaveOperators(s[Width(OpOf(s))..], Plain, [], OpOf(s));
    } else {
      LaterPiecesHaveOperators(s[1..], Next(q, s[0]), buf + [s[0]], op);
    }
  }

  /** What the parser returns for any command: trimmed, non-empty segments without an operator outside quotes. */
  lemma ParseIsOk(c: string)
    ensures ListOk(Parse(c))
  {
    LexIsClean(c, Plain, [], NoOp);
    LaterPiecesHaveOperators(c, Plain, [], NoOp);
    KeepOk(Lex(c, Plain, [], NoOp));
  }

  /** Parsing the printed form of what was parsed gives the same segments and operators, for every command. */
  lemma ParsePrintParse(c: string)
    ensures Parse(Print(Parse(c))) == Parse(c)
  {
    ParseIsOk(c);
    PrintThenParse(Parse(c));
  }

  // ---------- the first operator ----------

  /** The text in front of the first operator outside quotes. */
  function UpToOperator(s: string, q: Quote): string
    decreases |s|
  {
    if s == [] || (q.Plain? && OpOf(s) != NoOp) then [] else [s[0]] + UpToOperator(s[1..], Next(q, s[0]))
  }

  lemma {:induction false} FirstPiece(s: string, q: Quote, buf: string, op: Op)
    ensures Lex(s, q, buf, op)[0] == Piece(op, buf + UpToOperator(s, q))
    decreases |s|
  {
    if s == [] || (q.Plain? && OpOf(s) != NoOp) {
      assert buf + [] == buf;
    } else {
      FirstPiece(s[1..], Next(q, s[0]), buf + [s[0]], op);
      assert buf + [s[0]] + UpToOperator(s[1..], Next(q, s[0])) == buf + UpToOperator(s, q);
    }
  }

  lemma {:induction false} KeepKeepsOperators(pieces: seq<Piece>)
    requires forall i :: 0 <= i < |pieces| ==> pieces[i].op != NoOp
    ensures forall i :: 0 <= i < |Keep(pieces)| ==> Keep(pieces)[i].op != NoOp
  {
    if pieces != [] {
      assert forall i :: 0 <= i < |pieces[1..]| ==> pieces[1..][i] == pieces[i + 1];
      KeepKeepsOperators(pieces[1..]);
    }
  }

  /** The first segment of a command has no operator exactly when the text in front of the first operator is not blank. */
  lemma FirstHasNoOperatorExactlyWhen(c: string)
    requires Parse(c) != []
    ensures Parse(c)[0].op == NoOp <==> Trim(UpToOperator(c, Plain), PY_SPACE) != []
  {
    var pieces := Lex(c, Plain, [], NoOp);
    FirstPiece(c, Plain, [], NoOp);
    assert [] + UpToOperator(c, Plain) == UpToOperator(c, Plain);
    LaterPiecesHaveOperators(c, Plain, [], NoOp);
    assert forall i :: 0 <= i < |pieces[1..]| ==> pieces[1..][i] == pieces[i + 1];
    KeepKeepsOperators(pieces[1..]);
    assert Keep(pieces) == SegmentOf(pieces[0]) + Keep(pieces[1..]);
  }

  /** A leading operator is reported with the first segment. */
  lemma LeadingOperatorIsKept(text: string, op: Op)
    requires SegmentOk(Segment(text, op), true) && op != NoOp
    ensures Parse(OpText(op) + Padded(text)) == [Segment(text, op)]
  {
    var list := [Segment(text, op)];
    PrintThenParse(list);
    assert Print(list) == OpText(op) + Padded(text) + Print([]);
    assert OpText(op) + Padded(text) + [] == OpText(op) + Padded(text);
  }

  // ---------- quotes, stated without the scanner ----------

  /** Inside quotes of one kind everything but the closing quote is plain text, operators included. */
  lemma {:induction false} InsideQuotes(q: Quote, mark: char, body: string)
    requires (q.Single? && mark == '\'') || (q.Double? && mark == '"')
    requires mark !in body
    ensures Clean(q, body + [mark]) && After(q, body + [mark]) == Plain
    decreases |body|
  {
    if body == [] {
      assert [] + [mark] == [mark];
    } else {
      assert (body + [mark])[1..] == body[1..] + [mark];
      InsideQuotes(q, mark, body[1..]);
    }
  }

  /** A trimmed text without an operator outside quotes is one segment. */
  lemma CleanTextIsOneSegment(s: string)
    requires s != [] && Trimmed(s, PY_SPACE) && Clean(Plain, s) && s[|s| - 1] != '&'
    ensures Parse(s) == [Segment(s, NoOp)]
  {
    assert s + [] == s && [] + s == s && [] + s + [] == s;
    LexRun(s, [], Plain, [], NoOp);
    LexEnd(After(Plain, s), s, NoOp);
    TrimPadded([], s, [], PY_SPACE);
  }

  /** A quoted text is one segment whatever it contains: no operator inside it splits the command. */
  lemma QuotedTextIsOneSegment(mark: char, body: string)
    requires (mark == '\'' || mark == '"') && mark !in body
    ensures Parse([mark] + body + [mark]) == [Segment([mark] + body + [mark], NoOp)]
  {
    var s := [mark] + body + [mark];
    InsideQuotes(if mark == '\'' then Single else Double, mark, body);
    assert s[1..] == body + [mark];
    assert s[0] == mark && s[|s| - 1] == mark;
    CleanTextIsOneSegment(s);
  }
}
