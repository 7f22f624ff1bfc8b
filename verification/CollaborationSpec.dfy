/** The text an agent streams back for a work item, and the result block taken from it. */
module CollaborationSpec {
  import opened Basics
  import opened Text

  /** Text is a sequence of bytes here; the limits of the program count bytes. */
  const MAX_TEXT := 128 * 1024
  const MAX_BLOCK := 64 * 1024
  const MAX_STEP := 100000

  const START_MARKER := "[SEREIN_RESULT]"
  const END_MARKER := "[/SEREIN_RESULT]"

  datatype Status = NoStatus | Working | Completed | Broken

  /** `block` stands for the summary: the text handed to the JSON decoder when the turn ended well. */
  datatype Run = Run(status: Status, text: string, block: Option<string>, agent: Id)

  /** `valid` tells whether a session id and agent name have the right shape. */
  datatype Event =
    | TurnStart
    | Text(content: string, printable: bool)
    | AgentSession(agent: Id, valid: bool)
    | TurnEnd(ended: bool)

  const FRESH := Run(Working, "", None, NONE)

  // ---------- accumulation ----------

  function Added(text: string, content: string): string
  {
    LastN((if text == "" then text else text + ['\n']) + content, MAX_TEXT)
  }

  function Record(r: Run, e: Event): Run
  {
    match e
    case TurnStart => r.(text := "", block := None, status := Working)
    case Text(content, printable) =>
      if content == "" || |content| > MAX_STEP || !printable then r else r.(text := Added(r.text, content))
    case AgentSession(agent, valid) => if valid then r.(agent := agent) else r
    case TurnEnd(ended) => if ended then r.(status := Completed, block := Block(r.text)) else r.(status := Broken)
  }

  function RecordAll(r: Run, es: seq<Event>): Run
  {
    if es == [] then r else Record(RecordAll(r, es[..|es| - 1]), es[|es| - 1])
  }

  /** The texts of the current turn that count. */
  function TurnTexts(es: seq<Event>): seq<string>
  {
    if es == [] then []
    else
      var e, before := es[|es| - 1], TurnTexts(es[..|es| - 1]);
      if e.TurnStart? then []
      else if e.Text? && e.content != "" && |e.content| <= 100000 && e.printable then before + [e.content]
      else before
  }

  /** The texts on lines of their own, nothing left out. */
  function Lines(texts: seq<string>): string
  {
    if texts == [] then ""
    else if |texts| == 1 then texts[0]
    else Lines(texts[..|texts| - 1]) + ['\n'] + texts[|texts| - 1]
  }

  lemma {:induction false} LinesNotEmpty(texts: seq<string>)
    requires forall i :: 0 <= i < |texts| ==> texts[i] != ""
    ensures Lines(texts) == "" <==> texts == []
  {
  }

  lemma {:induction false} TurnTextsNotEmpty(es: seq<Event>)
    ensures forall i :: 0 <= i < |TurnTexts(es)| ==> TurnTexts(es)[i] != ""
  {
    if es != [] {
      TurnTextsNotEmpty(es[..|es| - 1]);
    }
  }

  lemma AddedToSome(all: string, content: string)
    requires all != ""
    ensures Added(LastN(all, MAX_TEXT), content) == LastN(all + ['\n'] + content, MAX_TEXT)
  {
    var kept := LastN(all, MAX_TEXT);
    LastNAppend(all, ['\n'] + content, MAX_TEXT);
    assert kept != "";
    assert kept + ['\n'] + content == kept + (['\n'] + content);
    assert all + ['\n'] + content == all + (['\n'] + content);
  }

  lemma LinesSnoc(texts: seq<string>, content: string)
    ensures Lines(texts + [content]) == if texts == [] then content else Lines(texts) + ['\n'] + content
  {
    assert (texts + [content])[..|texts|] == texts;
  }

  lemma OneMoreText(texts: seq<string>, content: string)
    requires content != "" && forall i :: 0 <= i < |texts| ==> texts[i] != ""
    ensures Added(LastN(Lines(texts), MAX_TEXT), content) == LastN(Lines(texts + [content]), MAX_TEXT)
  {
    LinesNotEmpty(texts);
    LinesSnoc(texts, content);
    if texts == [] {
      assert "" + content == content;
    } else {
      AddedToSome(Lines(texts), content);
    }
  }

  /** Truncating after every event keeps exactly what truncating the whole turn once would keep. */
  lemma {:induction false} TextIsTheEndOfTheTurn(es: seq<Event>)
    ensures RecordAll(FRESH, es).text == LastN(Lines(TurnTexts(es)), 128 * 1024)
  {
    if es != [] {
      var front, e := es[..|es| - 1], es[|es| - 1];
      TextIsTheEndOfTheTurn(front);
      TurnTextsNotEmpty(front);
      if e.Text? && e.content != "" && |e.content| <= MAX_STEP && e.printable {
        OneMoreText(TurnTexts(front), e.content);
      }
    }
  }

  // ---------- the result block ----------

  /** `m` occurs in `s` at `i`. */
  predicate At(s: string, i: int, m: string)
  {
    0 <= i && i + |m| <= |s| && s[i..i + |m|] == m
  }

  /** The last occurrence at or before `i`, or -1. */
  function LastFrom(s: string, m: string, i: int): (r: int)
    ensures -1 <= r && (r >= 0 ==> At(s, r, m) && r <= i)
    ensures forall j :: r < j <= i ==> !At(s, j, m)
    decreases i
  {
    if i < 0 then -1 else if At(s, i, m) then i else LastFrom(s, m, i - 1)
  }

  function LastIndex(s: string, m: string): (r: int)
    ensures -1 <= r && (r >= 0 ==> At(s, r, m))
    ensures forall j :: r < j ==> !At(s, j, m)
  {
    LastFrom(s, m, |s|)
  }

  /** The first occurrence at or after `i`, or -1. */
  function FirstFrom(s: string, m: string, i: nat): (r: int)
    ensures -1 <= r && (r >= 0 ==> At(s, r, m) && i <= r)
    ensures forall j :: i <= j && (r < 0 || j < r) ==> !At(s, j, m)
    decreases |s| - i
  {
    if i > |s| then -1 else if At(s, i, m) then i else if i == |s| then -1 else FirstFrom(s, m, i + 1)
  }

  /** What parseCollaborationSummary hands to the JSON decoder. */
  function Block(value: string): Option<string>
  {
    BlockBetween(value, START_MARKER, END_MARKER)
  }

  /** What follows a start marker decides the block. */
  function BlockAfter(rest: string, close: string): Option<string>
  {
    var end := FirstFrom(rest, close, 0);
    if end < 0 then None
    else
      var block := Trim(rest[..end], GO_SPACE);
      if |block| == 0 || |block| > MAX_BLOCK then None else Some(block)
  }

  function BlockBetween(value: string, open: string, close: string): Option<string>
  {
    var start := LastIndex(value, open);
    if start < 0 then None else BlockAfter(value[start + |open|..], close)
  }

  /** Occurrences in the end of a text are occurrences in the text. */
  lemma AtInSuffix(s: string, k: nat, i: int, m: string)
    requires k <= |s| && i >= 0
    ensures At(s[k..], i, m) <==> At(s, i + k, m)
  {
    if i + |m| <= |s[k..]| {
      assert s[k..][i..i + |m|] == s[i + k..i + k + |m|];
    }
  }

  lemma LastIndexInSuffix(s: string, k: nat, m: string)
    requires k <= |s|
    ensures LastIndex(s[k..], m) == if LastIndex(s, m) >= k then LastIndex(s, m) - k else -1
  {
    var a, b := LastIndex(s, m), LastIndex(s[k..], m);
    if b >= 0 {
      AtInSuffix(s, k, b, m);
    }
    if a >= k {
      AtInSuffix(s, k, a - k, m);
    }
    if b >= 0 && a >= k && b < a - k {
      AtInSuffix(s, k, a - k, m);
    }
    if b >= 0 {
      assert a >= b + k;
    }
  }

  /** Truncation loses the block exactly when it cuts into the last start marker; otherwise the same block is found. */
  lemma TruncationKeepsTheBlock(full: string, open: string, close: string, n: nat)
    requires open != ""
    ensures BlockBetween(LastN(full, n), open, close) ==
            if |full| - n <= LastIndex(full, open) then BlockBetween(full, open, close) else None
  {
    if |full| > n {
      SuffixBlock(full, |full| - n, open, close);
    }
  }

  lemma SuffixBlock(full: string, k: nat, open: string, close: string)
    requires k <= |full|
    ensures BlockBetween(full[k..], open, close) == if k <= LastIndex(full, open) then BlockBetween(full, open, close) else None
  {
    LastIndexInSuffix(full, k, open);
    if k <= LastIndex(full, open) {
      SuffixOfSuffix(full, k, LastIndex(full, open) + |open|);
    }
  }

  lemma SuffixOfSuffix(s: string, k: nat, j: nat)
    requires k <= j <= |s|
    ensures s[k..][j - k..] == s[j..]
  {
  }

  /** For every turn: when it ends well, the block recorded is that of the full text, unless its start was cut off. */
  lemma RecordedBlock(es: seq<Event>)
    ensures var full := Lines(TurnTexts(es));
            RecordAll(FRESH, es + [TurnEnd(true)]).block ==
            if |full| - 128 * 1024 <= LastIndex(full, "[SEREIN_RESULT]")
            then BlockBetween(full, "[SEREIN_RESULT]", "[/SEREIN_RESULT]") else None
  {
    TextIsTheEndOfTheTurn(es);
    assert (es + [TurnEnd(true)])[..|es|] == es;
    TruncationKeepsTheBlock(Lines(TurnTexts(es)), START_MARKER, END_MARKER, MAX_TEXT);
  }

  lemma MiddleIsAt(a: string, b: string, c: string)
    ensures At(a + b + c, |a|, b) && (a + b + c)[|a| + |b|..] == c && (a + b + c)[..|a|] == a
  {
    assert (a + b + c)[|a|..|a| + |b|] == b;
  }

  lemma LastIndexIs(s: string, m: string, i: nat)
    requires At(s, i, m) && forall j :: i < j ==> !At(s, j, m)
    ensures LastIndex(s, m) == i
  {
  }

  lemma FirstIndexIs(s: string, m: string, i: nat)
    requires At(s, i, m) && forall j :: 0 <= j < i ==> !At(s, j, m)
    ensures FirstFrom(s, m, 0) == i
  {
  }

  lemma BlockAfterBody(body: string, close: string, after: string)
    requires forall j :: 0 <= j < |body| ==> !At(body + close + after, j, close)
    ensures BlockAfter(body + close + after, close) ==
            if 0 < |Trim(body, GO_SPACE)| <= 64 * 1024 then Some(Trim(body, GO_SPACE)) else None
  {
    MiddleIsAt(body, close, after);
    FirstIndexIs(body + close + after, close, |body|);
  }

  /** What stands between the last start marker and the end marker after it is found, trimmed, unless it is blank or too long. */
  lemma BlockIsFound(before: string, body: string, after: string, open: string, close: string)
    requires open != "" && close != ""
    requires forall j :: |before| < j ==> !At(before + open + (body + close + after), j, open)
    requires forall j :: 0 <= j < |body| ==> !At(body + close + after, j, close)
    ensures BlockBetween(before + open + (body + close + after), open, close) ==
            if 0 < |Trim(body, GO_SPACE)| <= 64 * 1024 then Some(Trim(body, GO_SPACE)) else None
  {
    var rest := body + close + after;
    MiddleIsAt(before, open, rest);
    LastIndexIs(before + open + rest, open, |before|);
    BlockAfterBody(body, close, after);
  }

  /** Without a start marker, or without an end marker behind the last one, there is no block. */
  lemma NoMarkerNoBlock(value: string, open: string, close: string)
    requires open != ""
    ensures (forall j :: !At(value, j, open)) ==> BlockBetween(value, open, close) == None
    ensures LastIndex(value, open) >= 0 && (forall j :: LastIndex(value, open) + |open| <= j ==> !At(value, j, close)) ==>
              BlockBetween(value, open, close) == None
  {
    var start := LastIndex(value, open);
    if start >= 0 {
      var end := FirstFrom(value[start + |open|..], close, 0);
      if end >= 0 {
        AtInSuffix(value, start + |open|, end, close);
      }
    }
  }

  // ---------- the state of a run ----------

  /** Nothing after event `i` begins or ends a turn. */
  predicate LastOfTurn(es: seq<Event>, i: nat)
    requires i < |es|
  {
    (es[i].TurnStart? || es[i].TurnEnd?) && forall j :: i < j < |es| ==> !es[j].TurnStart? && !es[j].TurnEnd?
  }

  /** The status is that of the last beginning or end of a turn: working, completed, or broken off. */
  lemma {:induction false} StatusIsOfTheLastTurn(es: seq<Event>, i: nat)
    requires i < |es| && LastOfTurn(es, i)
    ensures RecordAll(FRESH, es).status ==
            if es[i].TurnStart? then Working else if es[i].ended then Completed else Broken
  {
    if i < |es| - 1 {
      var front := es[..|es| - 1];
      assert LastOfTurn(front, i);
      StatusIsOfTheLastTurn(front, i);
    }
  }

  /** A new turn has no block before it ends. */
  lemma {:induction false} NoBlockInANewTurn(es: seq<Event>, i: nat)
    requires i < |es| && LastOfTurn(es, i) && es[i].TurnStart?
    ensures RecordAll(FRESH, es).block == None
  {
    if i < |es| - 1 {
      var front := es[..|es| - 1];
      assert LastOfTurn(front, i);
      NoBlockInANewTurn(front, i);
    }
  }

  /** The block that was taken when a turn ended well stays until the next beginning or end. */
  lemma {:induction false} BlockStays(es: seq<Event>, i: nat)
    requires i < |es| && LastOfTurn(es, i) && es[i] == TurnEnd(true)
    ensures RecordAll(FRESH, es).block == RecordAll(FRESH, es[..i + 1]).block
  {
    if i < |es| - 1 {
      var front := es[..|es| - 1];
      assert LastOfTurn(front, i) && front[..i + 1] == es[..i + 1];
      BlockStays(front, i);
    } else {
      assert es[..i + 1] == es;
    }
  }

  /** The agent session is the last valid one that was named. */
  lemma {:induction false} AgentIsTheLastNamed(es: seq<Event>, i: nat)
    requires i < |es| && es[i].AgentSession? && es[i].valid
    requires forall j :: i < j < |es| ==> !(es[j].AgentSession? && es[j].valid)
    ensures RecordAll(FRESH, es).agent == es[i].agent
  {
    if i < |es| - 1 {
      AgentIsTheLastNamed(es[..|es| - 1], i);
    }
  }
}
