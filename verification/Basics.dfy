/** Datatypes every component uses. */
module Basics {

  datatype Option<+T> = None | Some(value: T)

  datatype Result<+T, +E> = Success(value: T) | Failure(error: E)

  /** Identifiers and other opaque strings are numbers, compared only for equality; NONE is the empty string. */
  type Id = nat

  const NONE: Id := 0

  /** Time is a count of nanoseconds; the components only compare and add. */
  const SECOND := 1_000_000_000
  const MINUTE := 60 * SECOND
  const HOUR := 60 * MINUTE

  /** A reading of a clock that never runs backwards. */
  function NotBefore(clock: int, at: int): (now: int)
    ensures now >= clock
  {
    if at < clock then clock else at
  }

  /** The last n elements, or all of them when there are fewer. */
  function LastN<T>(s: seq<T>, n: nat): (r: seq<T>)
  {
    if |s| <= n then s else s[|s| - n..]
  }

  /** Truncating early and truncating once at the end keep the same suffix. */
  lemma LastNAppend<T>(s: seq<T>, t: seq<T>, n: nat)
    ensures LastN(LastN(s, n) + t, n) == LastN(s + t, n)
  {
    if |s| > n {
      var k := |s| - n;
      assert (s + t)[k..] == s[k..] + t;
      assert (s + t)[k..][|t|..] == (s + t)[k + |t|..];
    }
  }

  /** True iff `p` is a prefix of `s`; kept as a predicate so that quantifiers have a term to match. */
  predicate IsPrefix<T(==)>(p: seq<T>, s: seq<T>)
  {
    p <= s
  }

  /** The list without the first occurrence of `x`. */
  function Without(s: seq<nat>, x: nat): (r: seq<nat>)
  {
    if s == [] then [] else if s[0] == x then s[1..] else [s[0]] + Without(s[1..], x)
  }

  lemma {:induction false} WithoutAt(s: seq<nat>, x: nat, i: nat)
    requires i < |s| && s[i] == x && forall j :: 0 <= j < i ==> s[j] != x
    ensures Without(s, x) == s[..i] + s[i + 1..]
  {
    if i > 0 {
      WithoutAt(s[1..], x, i - 1);
      assert s[1..][..i - 1] == s[1..i] && s[1..][i..] == s[i + 1..];
    }
  }

  lemma {:induction false} WithoutNothing(s: seq<nat>, x: nat)
    requires forall j :: 0 <= j < |s| ==> s[j] != x
    ensures Without(s, x) == s
  {
    if s != [] {
      WithoutNothing(s[1..], x);
    }
  }

  /** The index loop by which the components cut one element out of a slice. */
  method Cut(s: seq<nat>, x: nat) returns (r: seq<nat>)
    ensures r == Without(s, x)
  {
    var i := 0;
    while i < |s|
      invariant 0 <= i <= |s|
      invariant forall j :: 0 <= j < i ==> s[j] != x
    {
      if s[i] == x {
        WithoutAt(s, x, i);
        return s[..i] + s[i + 1..];
      }
      i := i + 1;
    }
    WithoutNothing(s, x);
    return s;
  }
}
