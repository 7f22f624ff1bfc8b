/** Text helpers shared by the components that trim and scan strings. */
module Text {

  // The characters unicode.IsSpace accepts, which strings.TrimSpace removes.
  const GO_SPACE: set<char> := {
    '\t', '\n', '\U{0b}', '\U{0c}', '\r', ' ', '\U{85}', '\U{a0}', '\U{1680}',
    '\U{2000}', '\U{2001}', '\U{2002}', '\U{2003}', '\U{2004}', '\U{2005}', '\U{2006}',
    '\U{2007}', '\U{2008}', '\U{2009}', '\U{200a}', '\U{2028}', '\U{2029}', '\U{202f}',
    '\U{205f}', '\U{3000}'
  }

  // str.strip in Python also removes the four ASCII information separators.
  const PY_SPACE: set<char> := GO_SPACE + {'\U{1c}', '\U{1d}', '\U{1e}', '\U{1f}'}

  function TrimLeft(s: string, space: set<char>): (r: string)
    ensures |r| <= |s|
  {
    if s != [] && s[0] in space then TrimLeft(s[1..], space) else s
  }

  function TrimRight(s: string, space: set<char>): (r: string)
    ensures |r| <= |s|
  {
    if s != [] && s[|s| - 1] in space then TrimRight(s[..|s| - 1], space) else s
  }

  function Trim(s: string, space: set<char>): (r: string)
  {
    TrimRight(TrimLeft(s, space), space)
  }

  predicate AllSpace(s: string, space: set<char>)
  {
    forall i :: 0 <= i < |s| ==> s[i] in space
  }

  predicate Trimmed(s: string, space: set<char>)
  {
    s != [] ==> s[0] !in space && s[|s| - 1] !in space
  }

  lemma TrimLeftSplits(s: string, space: set<char>) returns (pre: string)
    ensures s == pre + TrimLeft(s, space)
    ensures AllSpace(pre, space)
    ensures var r := TrimLeft(s, space); r != [] ==> r[0] !in space
  {
    if s != [] && s[0] in space {
      var rest := TrimLeftSplits(s[1..], space);
      pre := [s[0]] + rest;
    } else {
      pre := [];
    }
  }

  lemma TrimRightSplits(s: string, space: set<char>) returns (post: string)
    ensures s == TrimRight(s, space) + post
    ensures AllSpace(post, space)
    ensures var r := TrimRight(s, space); r != [] ==> r[|r| - 1] !in space && r[0] == s[0]
  {
    if s != [] && s[|s| - 1] in space {
      var rest := TrimRightSplits(s[..|s| - 1], space);
      post := rest + [s[|s| - 1]];
      assert s == s[..|s| - 1] + [s[|s| - 1]];
    } else {
      post := [];
    }
  }

  /** Trim removes whitespace at both ends and nothing else. */
  lemma TrimSplits(s: string, space: set<char>) returns (pre: string, post: string)
    ensures s == pre + Trim(s, space) + post
    ensures AllSpace(pre, space) && AllSpace(post, space)
    ensures Trimmed(Trim(s, space), space)
  {
    pre := TrimLeftSplits(s, space);
    post := TrimRightSplits(TrimLeft(s, space), space);
    assert s == pre + (Trim(s, space) + post);
  }

  lemma TrimLeftOf(pre: string, s: string, space: set<char>)
    requires AllSpace(pre, space)
    ensures TrimLeft(pre + s, space) == TrimLeft(s, space)
  {
    if pre == [] {
      assert pre + s == s;
    } else {
      assert (pre + s)[1..] == pre[1..] + s;
      TrimLeftOf(pre[1..], s, space);
    }
  }

  lemma TrimRightOf(s: string, post: string, space: set<char>)
    requires AllSpace(post, space)
    ensures TrimRight(s + post, space) == TrimRight(s, space)
  {
    if post == [] {
      assert s + post == s;
    } else {
      assert (s + post)[..|s + post| - 1] == s + post[..|post| - 1];
      TrimRightOf(s, post[..|post| - 1], space);
    }
  }

  /** Whitespace added around a trimmed text is what Trim takes off again. */
  lemma TrimPadded(pre: string, s: string, post: string, space: set<char>)
    requires AllSpace(pre, space) && AllSpace(post, space) && Trimmed(s, space)
    ensures Trim(pre + s + post, space) == s
  {
    assert pre + s + post == pre + (s + post);
    TrimLeftOf(pre, s + post, space);
    if s == [] {
      TrimLeftOf(post, [], space);
      assert s + post == post + [];
    } else {
      assert (s + post)[0] == s[0];
      TrimRightOf(s, post, space);
    }
  }
}
