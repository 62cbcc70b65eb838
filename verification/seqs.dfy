/** Facts about sequences of stage and field names used throughout the model. */
module Seqs {

  /** No name occurs twice in `s`. */
  ghost predicate Distinct(s: seq<string>) {
    forall i, j :: 0 <= i < j < |s| ==> s[i] != s[j]
  }

  /** `x` occurs at two different positions of `s`. */
  ghost predicate Repeated(s: seq<string>, x: string) {
    exists i, j :: 0 <= i < j < |s| && s[i] == x && s[j] == x
  }

  /** The first position of `x` in `s`, which is what Python's `list.index` returns. */
  function IndexOf(s: seq<string>, x: string): (i: nat)
    requires x in s
    ensures i < |s| && s[i] == x && x !in s[..i]
  {
    if s[0] == x then 0
    else
      var j := IndexOf(s[1..], x);
      assert s[..j + 1] == [s[0]] + s[1..][..j];
      j + 1
  }

  /** Appending a new element keeps a sequence free of repetitions. */
  lemma DistinctAppend(s: seq<string>, x: string)
    requires Distinct(s) && x !in s
    ensures Distinct(s + [x])
  {
  }

  /** A position holding the first occurrence of `x` is the one `IndexOf` returns. */
  lemma IndexOfFirst(s: seq<string>, x: string, i: nat)
    requires i < |s| && s[i] == x && x !in s[..i]
    ensures IndexOf(s, x) == i
  {
  }

  /** A repetition in a prefix is a repetition in the whole sequence. */
  lemma RepeatedInPrefix(prefix: seq<string>, s: seq<string>, x: string)
    requires prefix <= s && Repeated(prefix, x)
    ensures Repeated(s, x)
  {
  }

  /** An element of `b` met again among the elements before it in `a + b` is repeated there. */
  lemma SeenAgain(a: seq<string>, b: seq<string>, k: nat)
    requires k < |b| && b[k] in a + b[..k]
    ensures Repeated(a + b, b[k]) && !Distinct(a + b)
  {
    var seen := a + b[..k];
    var whole := a + b;
    var j := IndexOf(seen, b[k]);
    assert whole[..|a| + k] == seen;
    assert whole[j] == b[k] && whole[|a| + k] == b[k];
  }

  /** The two halves of a sequence without repetitions share no element. */
  lemma DistinctDisjoint(a: seq<string>, b: seq<string>)
    requires Distinct(a + b)
    ensures forall x :: x in b ==> x !in a
  {
    forall x | x in b
      ensures x !in a
    {
      var j := IndexOf(b, x);
      forall i | 0 <= i < |a|
        ensures a[i] != x
      {
        assert (a + b)[i] == a[i] && (a + b)[|a| + j] == x;
      }
    }
  }
}
