/** The prompt envelope: JSON data whose runs of dashes are escaped so that they cannot look like a delimiter. */
module Envelope {
  import opened Basics
  import SessionSpec

  /** The escape of one dash. */
  const ONE: string := "\\u002d"

  /** Three dashes in a row occur at `i`. */
  predicate DashesAt(s: string, i: int)
  {
    0 <= i && i + 3 <= |s| && s[i] == '-' && s[i + 1] == '-' && s[i + 2] == '-'
  }

  /** strings.ReplaceAll: left to right, without overlap. */
  function Escape(s: string): string
  {
    if s == [] then []
    else if DashesAt(s, 0) then ONE + (ONE + (ONE + Escape(s[3..])))
    else [s[0]] + Escape(s[1..])
  }

  // ---------- no delimiter inside ----------

  /** How a text of dashes starts after escaping. */
  lemma {:induction false} EscapeStarts(s: string)
    ensures Escape(s) != [] && Escape(s)[0] == '-' ==> s != [] && s[0] == '-' && !DashesAt(s, 0)
    ensures |Escape(s)| > 1 && Escape(s)[0] == '-' && Escape(s)[1] == '-' ==> |s| > 1 && s[0] == '-' && s[1] == '-'
  {
    if s != [] && !DashesAt(s, 0) {
      EscapeStarts(s[1..]);
    }
  }

  lemma PrependKeepsNoDashes(word: string, s: string, i: int)
    requires (forall k :: 0 <= k < |word| ==> word[k] != '-') && !DashesAt(s, i - |word|)
    ensures !DashesAt(word + s, i)
  {
  }

  /** Whatever the text, nothing that looks like a delimiter is left in it. */
  lemma {:induction false} EscapeLeavesNoDashes(s: string, i: int)
    ensures !DashesAt(Escape(s), i)
    decreases |s|
  {
    if s != [] {
      if DashesAt(s, 0) {
        var e := Escape(s[3..]);
        EscapeLeavesNoDashes(s[3..], i - 6 - 6 - 6);
        PrependKeepsNoDashes(ONE, e, i - 6 - 6);
        PrependKeepsNoDashes(ONE, ONE + e, i - 6);
        PrependKeepsNoDashes(ONE, ONE + (ONE + e), i);
      } else {
        EscapeLeavesNoDashes(s[1..], i - 1);
        EscapeStarts(s[1..]);
      }
    }
  }

  lemma TripleIsEscaped(s: string)
    requires DashesAt(s, 0)
    ensures Escape(s) == "\\u002d\\u002d\\u002d" + Escape(s[3..])
  {
  }

  /** A text without three dashes in a row is left as it is, and three dashes are replaced wherever they come first. */
  lemma {:induction false} OnlyTriplesAreEscaped(before: string, rest: string)
    requires forall i :: 0 <= i < |before| ==> !DashesAt(before + rest, i)
    requires rest == [] || DashesAt(rest, 0)
    ensures Escape(before + rest) ==
            before + (if rest == [] then [] else "\\u002d\\u002d\\u002d" + Escape(rest[3..]))
    decreases |before|
  {
    if before == [] {
      assert before + rest == rest;
      if rest != [] {
        TripleIsEscaped(rest);
      }
    } else {
      var tail := before[1..] + rest;
      assert before + rest == [before[0]] + tail;
      forall i | 0 <= i < |before[1..]|
        ensures !DashesAt(tail, i)
      {
        assert !DashesAt(before + rest, i + 1);
      }
      OnlyTriplesAreEscaped(before[1..], rest);
      assert Escape(before + rest) == [before[0]] + Escape(tail);
    }
  }

  /** Up to the closing line there is no delimiter: the first three dashes after the data are those of the line itself. */
  lemma NoDelimiterBeforeTheClosingLine(data: string, closing: string, i: int)
    requires closing != [] && closing[0] != '-' && i <= |Escape(data)|
    ensures !DashesAt(Escape(data) + closing, i)
  {
    var e := Escape(data);
    EscapeLeavesNoDashes(data, i);
    if i + 3 > |e| {
      assert (e + closing)[|e|] == closing[0];
    }
  }

  // ---------- decoding (section 7 of RFC 8259) ----------

  datatype Token = Punct(c: char) | Text(units: seq<int>)

  predicate IsHex(c: char)
  {
    '0' <= c <= '9' || 'a' <= c <= 'f' || 'A' <= c <= 'F'
  }

  function HexDigit(c: char): int
  {
    if '0' <= c <= '9' then c as int - '0' as int
    else if 'a' <= c <= 'f' then c as int - 'a' as int + 10
    else c as int - 'A' as int + 10
  }

  /** The code unit of a two-character escape, if the second character is one of the eight allowed. */
  function Short(c: char): Option<int>
  {
    if c == '"' || c == '\\' || c == '/' then Some(c as int)
    else if c == 'b' then Some(8)
    else if c == 'f' then Some(12)
    else if c == 'n' then Some(10)
    else if c == 'r' then Some(13)
    else if c == 't' then Some(9)
    else None
  }

  /** One character or escape at the start of a string body: its code unit and its length. */
  function Unit(s: string): (r: Option<(int, nat)>)
    requires s != []
    ensures r.Some? ==> 0 < r.value.1 <= |s|
  {
    if s[0] < ' ' || s[0] == '"' then None
    else if s[0] != '\\' then Some((s[0] as int, 1))
    else if |s| >= 2 && Short(s[1]).Some? then Some((Short(s[1]).value, 2))
    else if |s| >= 6 && s[1] == 'u' && IsHex(s[2]) && IsHex(s[3]) && IsHex(s[4]) && IsHex(s[5])
    then Some((4096 * HexDigit(s[2]) + 256 * HexDigit(s[3]) + 16 * HexDigit(s[4]) + HexDigit(s[5]), 6))
    else None
  }

  function Cons(u: int, rest: Option<(seq<int>, string)>): Option<(seq<int>, string)>
  {
    if rest.None? then None else Some(([u] + rest.value.0, rest.value.1))
  }

  /** The code units up to the closing quote, and what follows it. */
  function Body(s: string): (r: Option<(seq<int>, string)>)
    ensures r.Some? ==> |r.value.1| < |s|
    decreases |s|
  {
    if s == [] then None
    else if s[0] == '"' then Some(([], s[1..]))
    else if Unit(s).None? then None
    else
      Cons(Unit(s).value.0, Body(s[Unit(s).value.1..]))
  }

  /** A document as punctuation and decoded strings. */
  function Tokens(s: string): Option<seq<Token>>
    decreases |s|
  {
    if s == [] then Some([])
    else if s[0] == '"' then
      var b := Body(s[1..]);
      if b.None? then None
      else
        var rest := Tokens(b.value.1);
        if rest.None? then None else Some([Text(b.value.0)] + rest.value)
    else
      var rest := Tokens(s[1..]);
      if rest.None? then None else Some([Punct(s[0])] + rest.value)
  }

  /** Outside its strings the document has no three dashes in a row; encoded objects have none at all there. */
  predicate NoOuterDashes(s: string)
    requires Tokens(s).Some?
    decreases |s|
  {
    if s == [] then true
    else if s[0] == '"' then NoOuterDashes(Body(s[1..]).value.1)
    else !(DashesAt(s, 0)) && NoOuterDashes(s[1..])
  }

  lemma EscapeKeeps(s: string)
    requires s != [] && !(DashesAt(s, 0))
    ensures Escape(s) == [s[0]] + Escape(s[1..])
  {
  }

  /** An escape or character other than a dash is copied as it is. */
  lemma {:induction false} EscapeCopies(word: string, rest: string)
    requires forall i :: 0 <= i < |word| ==> word[i] != '-'
    ensures Escape(word + rest) == word + Escape(rest)
  {
    if word == [] {
      assert word + rest == rest;
    } else {
      EscapeKeeps(word + rest);
      assert (word + rest)[1..] == word[1..] + rest;
      EscapeCopies(word[1..], rest);
      assert word == [word[0]] + word[1..];
    }
  }

  /** A unit does not depend on what follows it. */
  lemma UnitLocal(word: string, s: string, t: string)
    requires word != [] && Unit(word + s).Some? && Unit(word + s).value.1 == |word|
    ensures Unit(word + t) == Unit(word + s)
  {
  }

  lemma UnitHasNoDash(s: string)
    requires s != [] && s[0] != '-' && Unit(s).Some?
    ensures forall i :: 0 <= i < Unit(s).value.1 ==> s[i] != '-'
  {
  }

  lemma BodyStep(s: string)
    requires s != [] && Unit(s).Some?
    ensures Body(s) == Cons(Unit(s).value.0, Body(s[Unit(s).value.1..]))
  {
  }

  /** The replacement of a dash decodes to a dash. */
  lemma OneDash(rest: string)
    ensures Body(ONE + rest) == Cons('-' as int, Body(rest))
  {
    var s := ONE + rest;
    assert s[6..] == rest;
    assert Unit(s) == Some((45, 6));
    BodyStep(s);
  }

  lemma PlainDash(s: string)
    requires s != [] && s[0] == '-'
    ensures Body(s) == Cons('-' as int, Body(s[1..]))
  {
    BodyStep(s);
  }

  lemma ReplacementDecodes(rest: string)
    ensures Body(ONE + (ONE + (ONE + rest))) == Cons(45, Cons(45, Cons(45, Body(rest))))
  {
    OneDash(rest);
    OneDash(ONE + rest);
    OneDash(ONE + (ONE + rest));
  }

  lemma ThreeDashes(s: string)
    requires DashesAt(s, 0)
    ensures Body(s) == Cons(45, Cons(45, Cons(45, Body(s[3..]))))
  {
    PlainDash(s);
    PlainDash(s[1..]);
    assert s[1..][1..] == s[2..];
    PlainDash(s[2..]);
    assert s[2..][1..] == s[3..];
  }

  /** A unit that is not replaced stays at the front, and the rest is escaped behind it. */
  lemma UnitSurvives(word: string, rest: string)
    requires word != [] && !DashesAt(word + rest, 0)
    requires Unit(word + rest).Some? && Unit(word + rest).value.1 == |word|
    ensures Escape(word + rest) == word + Escape(rest) && Unit(word + Escape(rest)) == Unit(word + rest)
  {
    if word[0] == '-' {
      EscapeKeeps(word + rest);
      assert (word + rest)[1..] == rest && word == [word[0]];
    } else {
      UnitHasNoDash(word + rest);
      assert forall i :: 0 <= i < |word| ==> word[i] == (word + rest)[i];
      EscapeCopies(word, rest);
    }
    UnitLocal(word, rest, Escape(rest));
  }

  /** Inside a string: the escaped body has the same code units, and what follows it is escaped too. */
  lemma {:induction false} BodySurvives(s: string)
    requires Body(s).Some?
    ensures Body(Escape(s)) == Some((Body(s).value.0, Escape(Body(s).value.1)))
    decreases |s|
  {
    if s[0] == '"' {
      EscapeKeeps(s);
      assert Escape(s)[1..] == Escape(s[1..]);
    } else if DashesAt(s, 0) {
      ThreeDashes(s);
      BodySurvives(s[3..]);
      ReplacementDecodes(Escape(s[3..]));
    } else {
      var word, rest := s[..Unit(s).value.1], s[Unit(s).value.1..];
      assert s == word + rest;
      UnitSurvives(word, rest);
      BodyStep(s);
      BodyStep(word + Escape(rest));
      assert (word + Escape(rest))[|word|..] == Escape(rest);
      BodySurvives(rest);
    }
  }

  /** The escaped document decodes to exactly the same values, for runs of dashes of any length, after escapes too. */
  lemma {:induction false} DocumentSurvives(s: string)
    requires Tokens(s).Some? && NoOuterDashes(s)
    ensures Tokens(Escape(s)) == Tokens(s)
    decreases |s|
  {
    if s == [] {
    } else if s[0] == '"' {
      EscapeKeeps(s);
      assert Escape(s)[1..] == Escape(s[1..]);
      BodySurvives(s[1..]);
      DocumentSurvives(Body(s[1..]).value.1);
    } else {
      EscapeKeeps(s);
      assert Escape(s)[1..] == Escape(s[1..]);
      DocumentSurvives(s[1..]);
    }
  }

  /** Validity is needed: a backslash in front of dashes is no JSON escape, but the replacement makes it one. */
  lemma InvalidBodiesMayBecomeValid(rest: string)
    requires Body(rest).Some?
    ensures Body("\\---" + rest).None? && Body(Escape("\\---" + rest)).Some?
  {
    var s := "\\---" + rest;
    var dashes := s[1..];
    assert s[0] == '\\' && s[1] == '-' && DashesAt(dashes, 0) && dashes[3..] == rest;
    EscapeKeeps(s);
    BodySurvives(rest);
    OneDash(Escape(rest));
    OneDash(ONE + Escape(rest));
    AfterBackslash(ONE + (ONE + Escape(rest)));
  }

  /** A backslash in front of a replacement: an escaped backslash and the word u002d. */
  lemma AfterBackslash(rest: string)
    requires Body(rest).Some?
    ensures Body(['\\'] + (ONE + rest)).Some?
  {
    var s := ['\\'] + (ONE + rest);
    assert Unit(s) == Some((92, 2)) && s[2..] == "u002d" + rest;
    BodyStep(s);
    PlainRun("u002d", rest);
  }

  lemma {:induction false} PlainRun(word: string, rest: string)
    requires (forall i :: 0 <= i < |word| ==> word[i] >= ' ' && word[i] != '"' && word[i] != '\\') && Body(rest).Some?
    ensures Body(word + rest).Some?
  {
    if word == [] {
      assert word + rest == rest;
    } else {
      assert (word + rest)[1..] == word[1..] + rest;
      PlainRun(word[1..], rest);
    }
  }

  // ---------- work items ----------

  /** What collaborationScope hashes. */
  function ScopeText(provider: string, repository: string, kind: string, number: string): string
  {
    SessionSpec.ScopedKey(provider, SessionSpec.ScopedKey(repository, SessionSpec.ScopedKey(kind, number)))
  }

  /** Different work items have different scope texts: the first three parts are printable, so they contain no NUL. */
  lemma ScopesAreDistinct(p: string, r: string, k: string, n: string, p': string, r': string, k': string, n': string)
    requires SessionSpec.NUL !in p && SessionSpec.NUL !in r && SessionSpec.NUL !in k
    requires SessionSpec.NUL !in p' && SessionSpec.NUL !in r' && SessionSpec.NUL !in k'
    requires ScopeText(p, r, k, n) == ScopeText(p', r', k', n')
    ensures p == p' && r == r' && k == k' && n == n'
  {
    SessionSpec.KeyInjective(p, SessionSpec.ScopedKey(r, SessionSpec.ScopedKey(k, n)),
                             p', SessionSpec.ScopedKey(r', SessionSpec.ScopedKey(k', n')));
    SessionSpec.KeyInjective(r, SessionSpec.ScopedKey(k, n), r', SessionSpec.ScopedKey(k', n'));
    SessionSpec.KeyInjective(k, n, k', n');
  }
}
