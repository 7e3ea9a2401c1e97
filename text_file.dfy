/**
 * Text files as the storage code sees them: a file is its content, and
 * reading it with fgets into a buffer of `size` bytes yields successive
 * pieces that end after a newline, after size - 1 characters, or at the
 * end of the content. Writing a sequence of lines writes their
 * concatenation.
 */
module TextFile {

  /** Index of the first newline of s, or |s| when there is none. */
  function NewlineIndex(s: string): (i: nat)
    ensures i <= |s|
    ensures forall k | 0 <= k < i :: s[k] != '\n'
    ensures i < |s| ==> s[i] == '\n'
  {
    if s == [] then 0 else if s[0] == '\n' then 0 else 1 + NewlineIndex(s[1..])
  }

  function Min(a: int, b: int): int { if a <= b then a else b }

  /** How many characters one fgets call into a buffer of `size` bytes consumes. */
  function LineLength(s: string, size: nat): (n: nat)
    requires s != [] && size >= 2
    ensures 1 <= n <= |s| && n <= size - 1
    ensures forall k | 0 <= k < n - 1 :: s[k] != '\n'
    ensures n == |s| || n == size - 1 || s[n - 1] == '\n'
  {
    Min(Min(NewlineIndex(s) + 1, |s|), size - 1)
  }

  /** The pieces successive fgets calls return until end of file. */
  function FgetsLines(s: string, size: nat): (ls: seq<string>)
    requires size >= 2
    ensures forall k | 0 <= k < |ls| :: ls[k] != [] && |ls[k]| <= size - 1
    ensures Concat(ls) == s
    decreases |s|
  {
    if s == [] then []
    else
      var n := LineLength(s, size);
      assert s == s[..n] + s[n..];
      [s[..n]] + FgetsLines(s[n..], size)
  }

  /** The content written by writing each line in turn. */
  function Concat(ls: seq<string>): string
  {
    if ls == [] then [] else ls[0] + Concat(ls[1..])
  }

  /** A line as the programs write it: ends in its only newline and fits the buffer. */
  predicate FullLine(l: string, size: nat)
  {
    0 < |l| <= size - 1 && l[|l| - 1] == '\n' && forall k | 0 <= k < |l| - 1 :: l[k] != '\n'
  }

  /** Reading a full line back takes exactly that line. */
  lemma FgetsFullLine(l: string, rest: string, size: nat)
    requires size >= 2 && FullLine(l, size)
    ensures FgetsLines(l + rest, size) == [l] + FgetsLines(rest, size)
  {
    var s := l + rest;
    assert s[|l| - 1] == '\n';
    assert forall k | 0 <= k < |l| - 1 :: s[k] == l[k];
    assert NewlineIndex(s) == |l| - 1;
    assert s[..|l|] == l && s[|l|..] == rest;
  }

  lemma ConcatCons(l: string, ls: seq<string>)
    ensures Concat([l] + ls) == l + Concat(ls)
  {
    assert ([l] + ls)[1..] == ls;
  }

  lemma {:induction false} ConcatAppend(ls: seq<string>, l: string)
    ensures Concat(ls + [l]) == Concat(ls) + l
    decreases |ls|
  {
    if ls == [] {
      assert [] + [l] == [l];
      ConcatCons(l, []);
    } else {
      assert ls + [l] == [ls[0]] + (ls[1..] + [l]);
      ConcatCons(ls[0], ls[1..] + [l]);
      ConcatAppend(ls[1..], l);
      ConcatCons(ls[0], ls[1..]);
      assert [ls[0]] + ls[1..] == ls;
    }
  }

  /** Writing full lines and reading them back yields the same lines. */
  lemma {:induction false} ReadBackFullLines(ls: seq<string>, size: nat)
    requires size >= 2
    requires forall k | 0 <= k < |ls| :: FullLine(ls[k], size)
    ensures FgetsLines(Concat(ls), size) == ls
    decreases |ls|
  {
    if ls != [] {
      ConcatCons(ls[0], ls[1..]);
      assert [ls[0]] + ls[1..] == ls;
      FgetsFullLine(ls[0], Concat(ls[1..]), size);
      ReadBackFullLines(ls[1..], size);
    }
  }
}
