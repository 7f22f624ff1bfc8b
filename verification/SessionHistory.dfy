/** The history a client gets when it joins: its own session's commands and answers, numbered and in order. */
module SessionHistory {
  import opened Basics

  datatype Action = NoAction | Chat | Other(kind: Id)

  datatype Output = NoOutput | Text(text: string) | Data(json: Id)

  /** A recorded result; results of timeouts carry no session. */
  datatype Result = Result(cmdId: Id, sessionId: Id, action: Action, output: Output, createdAt: int)

  /** A stored command; an empty text is NONE. */
  datatype Command = Command(action: Action, text: Id)

  datatype Content = Typed(text: Id) | Answer(output: Output)

  datatype Message = Message(seqNo: nat, content: Content, cmdId: Id, timestamp: int)

  const ERROR_START := "{\"error\":\""
  const TIMED_OUT := "timeout waiting for agent"
  const CANCELLED := "request cancelled"

  /** isValidChatOutput. */
  predicate ValidChatOutput(o: Output)
  {
    match o
    case NoOutput => false
    case Text(s) => s != "" && !(ERROR_START <= s) && s != TIMED_OUT && s != CANCELLED
    case Data(_) => true
  }

  function ActionOf(r: Result, cmds: map<Id, Command>): Action
  {
    if r.cmdId in cmds then cmds[r.cmdId].action else r.action
  }

  /** The results a session's history shows. */
  predicate Shown(r: Result, cmds: map<Id, Command>, sid: Id)
  {
    && r.sessionId != NONE && r.sessionId == sid && !ActionOf(r, cmds).Chat?
    && (ActionOf(r, cmds).NoAction? ==> ValidChatOutput(r.output))
  }

  /** The messages for one result: what was typed, if it is known and not empty, and the answer. */
  function MessagesFor(r: Result, cmds: map<Id, Command>, next: nat): seq<Message>
  {
    (if r.cmdId in cmds && cmds[r.cmdId].text != NONE
     then [Message(next + 1, Typed(cmds[r.cmdId].text), r.cmdId, r.createdAt)] else [])
    + [Message(next + 2, Answer(r.output), r.cmdId, r.createdAt)]
  }

  function ShownResults(results: seq<Result>, cmds: map<Id, Command>, sid: Id): seq<Result>
  {
    if results == [] then []
    else
      var r := results[|results| - 1];
      ShownResults(results[..|results| - 1], cmds, sid) + (if Shown(r, cmds, sid) then [r] else [])
  }

  function Messages(shown: seq<Result>, cmds: map<Id, Command>): seq<Message>
  {
    if shown == [] then []
    else Messages(shown[..|shown| - 1], cmds) + MessagesFor(shown[|shown| - 1], cmds, 2 * (|shown| - 1))
  }

  lemma ShownNext(results: seq<Result>, i: nat, cmds: map<Id, Command>, sid: Id)
    requires i < |results|
    ensures ShownResults(results[..i + 1], cmds, sid)
            == ShownResults(results[..i], cmds, sid) + (if Shown(results[i], cmds, sid) then [results[i]] else [])
  {
    assert results[..i + 1][..i] == results[..i];
  }

  lemma MessagesNext(shown: seq<Result>, r: Result, cmds: map<Id, Command>)
    ensures Messages(shown + [r], cmds) == Messages(shown, cmds) + MessagesFor(r, cmds, 2 * |shown|)
  {
    assert (shown + [r])[..|shown|] == shown;
  }

  /** GetHistory on the recent results of the queue. */
  method GetHistory(results: seq<Result>, cmds: map<Id, Command>, sid: Id) returns (out: seq<Message>)
    ensures out == Messages(ShownResults(results, cmds, sid), cmds)
  {
    out := [];
    var next := 0;
    ghost var shown: seq<Result> := [];
    var i := 0;
    while i < |results|
      invariant 0 <= i <= |results|
      invariant shown == ShownResults(results[..i], cmds, sid) && next == 2 * |shown|
      invariant out == Messages(shown, cmds)
    {
      var r := results[i];
      ShownNext(results, i, cmds, sid);
      if r.sessionId != NONE && r.sessionId == sid {
        var action := r.action;
        if r.cmdId in cmds {
          action := cmds[r.cmdId].action;
        }
        if action != Chat && (action != NoAction || ValidChatOutput(r.output)) {
          MessagesNext(shown, r, cmds);
          next := next + 1;
          if r.cmdId in cmds && cmds[r.cmdId].text != NONE {
            out := out + [Message(next, Typed(cmds[r.cmdId].text), r.cmdId, r.createdAt)];
          }
          next := next + 1;
          out := out + [Message(next, Answer(r.output), r.cmdId, r.createdAt)];
          shown := shown + [r];
        }
      }
      i := i + 1;
    }
    assert results[..i] == results;
  }

  /** Nothing of another session, no chat and no result without a session is shown. */
  lemma {:induction false} ShownBelongsToTheSession(results: seq<Result>, cmds: map<Id, Command>, sid: Id, k: nat)
    requires k < |ShownResults(results, cmds, sid)|
    ensures var r := ShownResults(results, cmds, sid)[k];
            r in results && r.sessionId == sid && sid != NONE && !ActionOf(r, cmds).Chat?
  {
    var front := results[..|results| - 1];
    if k < |ShownResults(front, cmds, sid)| {
      ShownBelongsToTheSession(front, cmds, sid, k);
    }
  }

  /** The answers among the messages. */
  function Answers(out: seq<Message>): seq<Message>
  {
    if out == [] then []
    else Answers(out[..|out| - 1]) + (if out[|out| - 1].content.Answer? then [out[|out| - 1]] else [])
  }

  lemma {:induction false} AnswersAppend(a: seq<Message>, b: seq<Message>)
    ensures Answers(a + b) == Answers(a) + Answers(b)
  {
    if b == [] {
      assert a + b == a;
    } else {
      assert (a + b)[..|a + b| - 1] == a + b[..|b| - 1];
      AnswersAppend(a, b[..|b| - 1]);
    }
  }

  function AnswerTo(r: Result, k: nat): Message
  {
    Message(2 * k + 2, Answer(r.output), r.cmdId, r.createdAt)
  }

  function AnswersTo(shown: seq<Result>): (out: seq<Message>)
    ensures |out| == |shown| && forall k :: 0 <= k < |shown| ==> out[k] == AnswerTo(shown[k], k)
  {
    if shown == [] then [] else AnswersTo(shown[..|shown| - 1]) + [AnswerTo(shown[|shown| - 1], |shown| - 1)]
  }

  lemma AnswersOfOne(r: Result, cmds: map<Id, Command>, k: nat)
    ensures Answers(MessagesFor(r, cmds, 2 * k)) == [AnswerTo(r, k)]
  {
    var typed := if r.cmdId in cmds && cmds[r.cmdId].text != NONE
                 then [Message(2 * k + 1, Typed(cmds[r.cmdId].text), r.cmdId, r.createdAt)] else [];
    AnswersAppend(typed, [AnswerTo(r, k)]);
    assert |typed| == 1 ==> typed[..0] == [];
    assert [AnswerTo(r, k)][..0] == [];
  }

  /** Every shown result has exactly one answer, in order, and the answer to number k has sequence number 2k + 2. */
  lemma {:induction false} OneAnswerEach(shown: seq<Result>, cmds: map<Id, Command>)
    ensures Answers(Messages(shown, cmds)) == AnswersTo(shown)
  {
    if shown != [] {
      var front, r := shown[..|shown| - 1], shown[|shown| - 1];
      OneAnswerEach(front, cmds);
      AnswersOfOne(r, cmds, |front|);
      AnswersAppend(Messages(front, cmds), MessagesFor(r, cmds, 2 * |front|));
    }
  }

  /** Sequence numbers grow strictly. */
  lemma {:induction false} NumbersGrow(shown: seq<Result>, cmds: map<Id, Command>, i: nat, j: nat)
    requires i < j < |Messages(shown, cmds)|
    ensures Messages(shown, cmds)[i].seqNo < Messages(shown, cmds)[j].seqNo
  {
    var front := shown[..|shown| - 1];
    if j < |Messages(front, cmds)| {
      NumbersGrow(front, cmds, i, j);
    } else if i < |Messages(front, cmds)| {
      NumbersBounded(front, cmds, i);
    }
  }

  lemma {:induction false} NumbersBounded(shown: seq<Result>, cmds: map<Id, Command>, i: nat)
    requires i < |Messages(shown, cmds)|
    ensures 0 < Messages(shown, cmds)[i].seqNo <= 2 * |shown|
  {
    var front := shown[..|shown| - 1];
    if i < |Messages(front, cmds)| {
      NumbersBounded(front, cmds, i);
    }
  }

  /**
   * What is shown: results of the session whose action is not a chat; without an action only data and texts that are
   * neither empty nor one of the error texts.
   */
  lemma {:induction false} ShownExactlyWhen(results: seq<Result>, cmds: map<Id, Command>, sid: Id, r: Result)
    ensures r in ShownResults(results, cmds, sid) <==>
            && r in results && r.sessionId == sid && sid != NONE
            && var action := if r.cmdId in cmds then cmds[r.cmdId].action else r.action;
               match action
               case Chat => false
               case Other(_) => true
               case NoAction =>
                 r.output.Data? || (r.output.Text? && r.output.text != "" && !("{\"error\":\"" <= r.output.text)
                                    && r.output.text != "timeout waiting for agent" && r.output.text != "request cancelled")
  {
    if results != [] {
      ShownExactlyWhen(results[..|results| - 1], cmds, sid, r);
      assert r in results <==> r in results[..|results| - 1] || r == results[|results| - 1];
    }
  }

  /** Shown results keep their order. */
  lemma {:induction false} ShownInOrder(a: seq<Result>, b: seq<Result>, cmds: map<Id, Command>, sid: Id)
    ensures ShownResults(a + b, cmds, sid) == ShownResults(a, cmds, sid) + ShownResults(b, cmds, sid)
  {
    if b == [] {
      assert a + b == a;
    } else {
      assert (a + b)[..|a + b| - 1] == a + b[..|b| - 1];
      ShownInOrder(a, b[..|b| - 1], cmds, sid);
    }
  }

  /** What was typed, among the messages. */
  function Typeds(out: seq<Message>): seq<Message>
  {
    if out == [] then []
    else Typeds(out[..|out| - 1]) + (if out[|out| - 1].content.Typed? then [out[|out| - 1]] else [])
  }

  lemma {:induction false} TypedsAppend(a: seq<Message>, b: seq<Message>)
    ensures Typeds(a + b) == Typeds(a) + Typeds(b)
  {
    if b == [] {
      assert a + b == a;
    } else {
      assert (a + b)[..|a + b| - 1] == a + b[..|b| - 1];
      TypedsAppend(a, b[..|b| - 1]);
    }
  }

  /** The typed texts of the results whose command is stored with one, each numbered just before its answer. */
  function TypedTo(shown: seq<Result>, cmds: map<Id, Command>): seq<Message>
  {
    if shown == [] then []
    else
      var k, r := |shown| - 1, shown[|shown| - 1];
      TypedTo(shown[..k], cmds)
      + (if r.cmdId in cmds && cmds[r.cmdId].text != NONE
         then [Message(2 * k + 1, Typed(cmds[r.cmdId].text), r.cmdId, r.createdAt)] else [])
  }

  lemma TypedOfOne(r: Result, cmds: map<Id, Command>, k: nat)
    ensures Typeds(MessagesFor(r, cmds, 2 * k)) ==
            if r.cmdId in cmds && cmds[r.cmdId].text != NONE
            then [Message(2 * k + 1, Typed(cmds[r.cmdId].text), r.cmdId, r.createdAt)] else []
  {
    var typed := if r.cmdId in cmds && cmds[r.cmdId].text != NONE
                 then [Message(2 * k + 1, Typed(cmds[r.cmdId].text), r.cmdId, r.createdAt)] else [];
    TypedsAppend(typed, [AnswerTo(r, k)]);
    assert |typed| == 1 ==> typed[..0] == [];
    assert [AnswerTo(r, k)][..0] == [];
  }

  /** Every typed text that is known is shown once, in order, just before its answer. */
  lemma {:induction false} TypedOnceEach(shown: seq<Result>, cmds: map<Id, Command>)
    ensures Typeds(Messages(shown, cmds)) == TypedTo(shown, cmds)
  {
    if shown != [] {
      var front, r := shown[..|shown| - 1], shown[|shown| - 1];
      TypedOnceEach(front, cmds);
      TypedOfOne(r, cmds, |front|);
      TypedsAppend(Messages(front, cmds), MessagesFor(r, cmds, 2 * |front|));
    }
  }
}
