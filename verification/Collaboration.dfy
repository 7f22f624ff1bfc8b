/** The record of one collaboration run as the step handler updates it. */
module Collaboration {
  import opened Basics
  import opened CollaborationSpec
  import Text

  class CollaborationRun {
    var status: Status
    var text: string
    var block: Option<string>
    var agent: Id

    ghost function Contents(): Run
      reads this
    {
      Run(status, text, block, agent)
    }

    constructor ()
      ensures Contents() == FRESH
    {
      status, text, block, agent := Working, "", None, NONE;
    }

    method AddText(content: string)
      requires content != ""
      modifies `text
      ensures text == Added(old(text), content)
    {
      if text != "" {
        text := text + ['\n'];
      }
      text := text + content;
      if |text| > MAX_TEXT {
        text := text[|text| - MAX_TEXT..];
      }
    }

    /** recordCollaborationStep on the run of its scope. */
    method RecordStep(e: Event)
      modifies this
      ensures Contents() == Record(old(Contents()), e)
    {
      match e
      case TurnStart =>
        text, block, status := "", None, Working;
      case Text(content, printable) =>
        if |content| <= MAX_STEP && printable && content != "" {
          AddText(content);
        }
      case AgentSession(who, valid) =>
        if valid {
          agent := who;
        }
      case TurnEnd(ended) =>
        if ended {
          status := Completed;
          block := ParseSummary(text);
        } else {
          status := Broken;
        }
    }
  }

  /** parseCollaborationSummary up to the JSON decoder. */
  method ParseSummary(value: string) returns (block: Option<string>)
    ensures block == Block(value)
  {
    var start := LastIndex(value, START_MARKER);
    if start < 0 {
      return None;
    }
    start := start + |START_MARKER|;
    var end := FirstFrom(value[start..], END_MARKER, 0);
    if end < 0 {
      return None;
    }
    var found := Text.Trim(value[start..start + end], Text.GO_SPACE);
    assert value[start..start + end] == value[start..][..end];
    if |found| == 0 || |found| > MAX_BLOCK {
      return None;
    }
    return Some(found);
  }
}
