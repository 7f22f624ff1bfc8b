/** A reader of a command's steps that always asks after the last number it has seen. */
module CommandSteps {
  import opened Basics
  import opened CommandQueueSpec

  /** The notes of one command. */
  function NotesOf(notes: seq<Note>, id: Id): seq<Note>
  {
    if notes == [] then []
    else
      var n := notes[|notes| - 1];
      NotesOf(notes[..|notes| - 1], id) + (if n.cmdId == id then [n] else [])
  }

  function AddAll(q: Queue, notes: seq<Note>): Queue
  {
    if notes == [] then q else AddStep(AddAll(q, notes[..|notes| - 1]), notes[|notes| - 1])
  }

  /** The agent numbers the steps of a command upwards. */
  predicate Numbered(notes: seq<Note>, id: Id)
  {
    forall i, j :: 0 <= i < j < |notes| && notes[i].cmdId == id && notes[j].cmdId == id ==> notes[i].seqNo < notes[j].seqNo
  }

  /** `after` separates the notes of the command in `past` from those in `more`. */
  predicate Between(past: seq<Note>, more: seq<Note>, id: Id, after: int)
  {
    && (forall n :: n in past && n.cmdId == id ==> n.seqNo <= after)
    && (forall n :: n in more && n.cmdId == id ==> n.seqNo > after)
  }

  /** The buffer holds the newest 500 of all steps ever added. */
  lemma {:induction false} BufferHoldsTheNewest(q: Queue, past: seq<Note>, notes: seq<Note>)
    requires q.steps == LastN(past, 500)
    ensures AddAll(q, notes) == q.(steps := LastN(past + notes, 500))
  {
    if notes == [] {
      assert past + notes == past;
    } else {
      var front, n := notes[..|notes| - 1], notes[|notes| - 1];
      BufferHoldsTheNewest(q, past, front);
      LastNAppend(past + front, [n], MAX_STEPS);
      assert past + front + [n] == past + notes;
    }
  }

  lemma {:induction false} NotesAppend(a: seq<Note>, b: seq<Note>, id: Id)
    ensures NotesOf(a + b, id) == NotesOf(a, id) + NotesOf(b, id)
  {
    if b == [] {
      assert a + b == a;
    } else {
      assert (a + b)[..|a + b| - 1] == a + b[..|b| - 1];
      NotesAppend(a, b[..|b| - 1], id);
    }
  }

  /** Asking after a number that separates two parts gives the second part. */
  lemma {:induction false} StepsAfter(past: seq<Note>, more: seq<Note>, id: Id, after: int)
    requires Between(past, more, id, after)
    ensures StepsOf(past + more, id, after) == NotesOf(more, id)
  {
    if more != [] {
      assert (past + more)[..|past + more| - 1] == past + more[..|more| - 1];
      StepsAfter(past, more[..|more| - 1], id, after);
    } else if past != [] {
      assert past + [] == past && past[..|past| - 1] + [] == past[..|past| - 1];
      StepsAfter(past[..|past| - 1], [], id, after);
    }
  }

  /**
   * A read returns exactly the steps of the command that came in since the last one, in order, as far as they are among
   * the newest 500 of all.
   */
  lemma ReadReturnsTheNews(past: seq<Note>, more: seq<Note>, id: Id, after: int)
    requires Between(past, more, id, after)
    ensures StepsOf(LastN(past + more, 500), id, after) == NotesOf(LastN(more, 500), id)
  {
    var all := past + more;
    if |more| >= MAX_STEPS {
      assert LastN(all, MAX_STEPS) == [] + LastN(more, MAX_STEPS);
      StepsAfter([], LastN(more, MAX_STEPS), id, after);
    } else {
      var kept := if |all| <= MAX_STEPS then past else past[|all| - MAX_STEPS..];
      assert LastN(all, MAX_STEPS) == kept + more;
      StepsAfter(kept, more, id, after);
    }
  }

  /** The number a reader asks after next: the last one it was given, or the one it asked after when it got nothing. */
  function LastSeen(read: seq<Note>, after: int): int
  {
    if read == [] then after else read[|read| - 1].seqNo
  }

  function Concat(batches: seq<seq<Note>>): seq<Note>
  {
    if batches == [] then [] else batches[0] + Concat(batches[1..])
  }

  /** What a reader gets that reads after each batch of new steps. */
  function ReadEach(q: Queue, batches: seq<seq<Note>>, id: Id, after: int): seq<Note>
    decreases |batches|
  {
    if batches == [] then []
    else
      var q' := AddAll(q, batches[0]);
      var read := StepsOf(q'.steps, id, after);
      read + ReadEach(q', batches[1..], id, LastSeen(read, after))
  }

  lemma {:induction false} NotesOfFacts(notes: seq<Note>, id: Id)
    requires Numbered(notes, id)
    ensures forall n :: n in NotesOf(notes, id) ==> n in notes && n.cmdId == id
    ensures forall n :: n in notes && n.cmdId == id ==> NotesOf(notes, id) != [] && n.seqNo <= LastSeen(NotesOf(notes, id), 0)
  {
    if notes != [] {
      NotesOfFacts(notes[..|notes| - 1], id);
      forall n | n in notes
        ensures n in notes[..|notes| - 1] || n == notes[|notes| - 1]
      {
      }
    }
  }

  lemma NumberedParts(a: seq<Note>, b: seq<Note>, id: Id)
    requires Numbered(a + b, id)
    ensures Numbered(a, id) && Numbered(b, id)
    ensures forall m, n :: m in a && n in b && m.cmdId == id && n.cmdId == id ==> m.seqNo < n.seqNo
  {
    forall i, j | 0 <= i < |a| && 0 <= j < |b| && a[i].cmdId == id && b[j].cmdId == id
      ensures a[i].seqNo < b[j].seqNo
    {
      assert (a + b)[i] == a[i] && (a + b)[|a| + j] == b[j];
    }
    forall i, j | 0 <= i < j < |a|
      ensures (a + b)[i] == a[i] && (a + b)[j] == a[j]
    {
    }
    forall i, j | 0 <= i < j < |b|
      ensures (a + b)[|a| + i] == b[i] && (a + b)[|a| + j] == b[j]
    {
    }
  }

  /** The last number read separates what was there from what comes next. */
  lemma NextBetween(past: seq<Note>, batch: seq<Note>, rest: seq<Note>, id: Id, after: int)
    requires Between(past, batch + rest, id, after) && Numbered(batch + rest, id)
    ensures Between(past + batch, rest, id, LastSeen(NotesOf(batch, id), after))
    ensures Between(past, batch, id, after) && Numbered(rest, id)
  {
    NumberedParts(batch, rest, id);
    NotesOfFacts(batch, id);
    forall n | n in batch || n in rest
      ensures n in batch + rest
    {
    }
    if NotesOf(batch, id) != [] {
      assert NotesOf(batch, id)[|NotesOf(batch, id)| - 1] in NotesOf(batch, id);
    }
  }

  /**
   * A reader that always asks after the last number it has seen gets every step of its command once and in order, as long
   * as no more than 500 steps of all commands come in between two reads.
   */
  lemma {:induction false} ReaderMissesNothing(q: Queue, past: seq<Note>, batches: seq<seq<Note>>, id: Id, after: int)
    requires q.steps == LastN(past, 500)
    requires Between(past, Concat(batches), id, after) && Numbered(Concat(batches), id)
    requires forall i :: 0 <= i < |batches| ==> |batches[i]| <= 500
    ensures ReadEach(q, batches, id, after) == NotesOf(Concat(batches), id)
    decreases |batches|
  {
    if batches != [] {
      var batch, rest := batches[0], batches[1..];
      NextBetween(past, batch, Concat(rest), id, after);
      BufferHoldsTheNewest(q, past, batch);
      ReadReturnsTheNews(past, batch, id, after);
      ReaderMissesNothing(AddAll(q, batch), past + batch, rest, id, LastSeen(NotesOf(batch, id), after));
      NotesAppend(batch, Concat(rest), id);
    }
  }

  /** The history that is shown is the newest part of everything recorded. */
  lemma HistoryIsTheNewest(recorded: seq<Outcome>, max: nat, n: int)
    ensures HistoryOf(LastN(recorded, max), n) == LastN(recorded, if 0 < n <= max then n else max)
  {
    var history := LastN(recorded, max);
    if 0 < n <= |history| {
      LastNAppend(recorded, [], n);
      assert recorded + [] == recorded;
    }
  }
}
