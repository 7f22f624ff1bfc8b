/** The quote-aware splitter of shell command chains, its printer, and the loop that runs a chain. */
module ShellChain {
  import opened Basics
  import opened Text

  datatype Quote = Plain | Single | Double

  datatype Op = NoOp | Pipe | And | Or | Semi | Newline

  /** A segment with the operator in front of it. */
  datatype Segment = Segment(text: string, op: Op)

  /** What lies between two operators, as written. */
  datatype Piece = Piece(op: Op, raw: string)

  function Next(q: Quote, c: char): Quote
  {
    match q
    case Single => if c == '\'' then Plain else Single
    case Double => if c == '"' then Plain else Double
    case Plain => if c == '\'' then Single else if c == '"' then Double else Plain
  }

  /** The operator a text starts with; a single ampersand is none. */
  function OpOf(s: string): Op
  {
    if s == [] then NoOp
    else if s[0] == ';' then Semi
    else if s[0] == '\n' then Newline
    else if s[0] == '&' && |s| > 1 && s[1] == '&' then And
    else if s[0] == '|' then if |s| > 1 && s[1] == '|' then Or else Pipe
    else NoOp
  }

  function Width(op: Op): (n: nat)
  {
    match op
    case NoOp => 0
    case And => 2
    case Or => 2
    case _ => 1
  }

  function OpText(op: Op): (s: string)
    ensures |s| == Width(op)
  {
    match op
    case NoOp => []
    case Pipe => ['|']
    case And => ['&', '&']
    case Or => ['|', '|']
    case Semi => [';']
    case Newline => ['\n']
  }

  /** Cut a text at the operators that lie outside quotes. */
  function Lex(s: string, q: Quote, buf: string, op: Op): (pieces: seq<Piece>)
    ensures pieces != []
    decreases |s|
  {
    if s == [] then [Piece(op, buf)]
    else if q.Plain? && OpOf(s) != NoOp then [Piece(op, buf)] + Lex(s[Width(OpOf(s))..], Plain, [], OpOf(s))
    else Lex(s[1..], Next(q, s[0]), buf + [s[0]], op)
  }

  function SegmentOf(p: Piece): seq<Segment>
  {
    var t := Trim(p.raw, PY_SPACE);
    if t == [] then [] else [Segment(t, p.op)]
  }

  /** Blank pieces are dropped, and their operator with them. */
  function Keep(pieces: seq<Piece>): seq<Segment>
  {
    if pieces == [] then [] else SegmentOf(pieces[0]) + Keep(pieces[1..])
  }

  function Parse(c: string): seq<Segment>
  {
    Keep(Lex(c, Plain, [], NoOp))
  }

  lemma KeepFirst(p: Piece, rest: seq<Piece>)
    ensures Keep([p] + rest) == SegmentOf(p) + Keep(rest)
  {
    assert ([p] + rest)[1..] == rest;
  }

  /** What is collected and what is still to be read make up the whole. */
  predicate Pending(out: seq<Segment>, s: string, q: Quote, buf: string, op: Op, whole: string)
  {
    out + Keep(Lex(s, q, buf, op)) == Parse(whole)
  }

  lemma PendingChar(out: seq<Segment>, s: string, q: Quote, buf: string, op: Op, whole: string)
    requires Pending(out, s, q, buf, op, whole) && s != [] && (!q.Plain? || OpOf(s) == NoOp)
    ensures Pending(out, s[1..], Next(q, s[0]), buf + [s[0]], op, whole)
  {
  }

  lemma PendingOp(out: seq<Segment>, s: string, buf: string, op: Op, whole: string)
    requires Pending(out, s, Plain, buf, op, whole) && s != [] && OpOf(s) != NoOp
    ensures Pending(out + SegmentOf(Piece(op, buf)), s[Width(OpOf(s))..], Plain, [], OpOf(s), whole)
  {
    var rest := Lex(s[Width(OpOf(s))..], Plain, [], OpOf(s));
    KeepFirst(Piece(op, buf), rest);
    assert out + (SegmentOf(Piece(op, buf)) + Keep(rest)) == out + SegmentOf(Piece(op, buf)) + Keep(rest);
  }

  lemma PendingNextChar(out: seq<Segment>, c: string, i: nat, q: Quote, buf: string, op: Op)
    requires i < |c| && Pending(out, c[i..], q, buf, op, c) && (!q.Plain? || OpOf(c[i..]) == NoOp)
    ensures Pending(out, c[i + 1..], Next(q, c[i]), buf + [c[i]], op, c)
  {
    PendingChar(out, c[i..], q, buf, op, c);
    assert c[i..][1..] == c[i + 1..];
  }

  lemma PendingNextOp(out: seq<Segment>, c: string, i: nat, buf: string, op: Op)
    requires i < |c| && Pending(out, c[i..], Plain, buf, op, c) && OpOf(c[i..]) != NoOp
    ensures i + Width(OpOf(c[i..])) <= |c|
    ensures Pending(out + SegmentOf(Piece(op, buf)), c[i + Width(OpOf(c[i..]))..], Plain, [], OpOf(c[i..]), c)
  {
    PendingOp(out, c[i..], buf, op, c);
    assert c[i..][Width(OpOf(c[i..]))..] == c[i + Width(OpOf(c[i..]))..];
  }

  lemma PendingEnds(out: seq<Segment>, q: Quote, buf: string, op: Op, whole: string)
    requires Pending(out, [], q, buf, op, whole)
    ensures out + SegmentOf(Piece(op, buf)) == Parse(whole)
  {
    KeepFirst(Piece(op, buf), []);
    assert [Piece(op, buf)] + [] == [Piece(op, buf)];
    assert SegmentOf(Piece(op, buf)) + [] == SegmentOf(Piece(op, buf));
  }

  /** The operator at a position outside quotes. */
  method OperatorAt(command: string, i: nat) returns (op: Op)
    requires i < |command|
    ensures op == OpOf(command[i..])
  {
    var c := command[i];
    if c == ';' {
      return Semi;
    }
    if c == '\n' {
      return Newline;
    }
    if c == '&' && i + 1 < |command| && command[i + 1] == '&' {
      return And;
    }
    if c == '|' {
      return if i + 1 < |command| && command[i + 1] == '|' then Or else Pipe;
    }
    return NoOp;
  }

  function QuoteOf(inSq: bool, inDq: bool): Quote
  {
    if inSq then Single else if inDq then Double else Plain
  }

  /** The quote flags after one more character. */
  method Toggle(inSq: bool, inDq: bool, c: char) returns (sq: bool, dq: bool)
    requires !(inSq && inDq)
    ensures !(sq && dq) && QuoteOf(sq, dq) == Next(QuoteOf(inSq, inDq), c)
  {
    sq, dq := inSq, inDq;
    if inSq {
      sq := c != '\'';
    } else if inDq {
      dq := c != '"';
    } else if c == '\'' {
      sq := true;
    } else if c == '"' {
      dq := true;
    }
  }

  /** Yield the trimmed buffer unless it is blank. */
  method Yield(out: seq<Segment>, buf: string, op: Op) returns (r: seq<Segment>)
    ensures r == out + SegmentOf(Piece(op, buf))
  {
    r := out;
    var text := Trim(buf, PY_SPACE);
    if text != [] {
      r := r + [Segment(text, op)];
    }
  }

  /** The generator's loop over the characters of a command. */
  method IterShellSegments(command: string) returns (out: seq<Segment>)
    ensures out == Parse(command)
  {
    var buf: string := [];
    var inSq, inDq := false, false;
    var pendingOp := NoOp;
    out := [];
    var i := 0;
    ghost var q := Plain;
    assert command[0..] == command;
    while i < |command|
      invariant 0 <= i <= |command| && !(inSq && inDq)
      invariant q == QuoteOf(inSq, inDq)
      invariant Pending(out, command[i..], q, buf, pendingOp, command)
    {
      var op := NoOp;
      if !inSq && !inDq {
        op := OperatorAt(command, i);
      }
      if op == NoOp {
        PendingNextChar(out, command, i, q, buf, pendingOp);
        inSq, inDq := Toggle(inSq, inDq, command[i]);
        q, buf := Next(q, command[i]), buf + [command[i]];
        i := i + 1;
      } else {
        PendingNextOp(out, command, i, buf, pendingOp);
        out := Yield(out, buf, pendingOp);
        buf, pendingOp := [], op;
        i := i + Width(op);
      }
    }
    assert command[i..] == [];
    PendingEnds(out, q, buf, pendingOp, command);
    out := Yield(out, buf, pendingOp);
  }
}
