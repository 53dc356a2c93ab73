/** Queues of sequence objects and what they look like as values. */
module Queues {
  import opened LanguageModel
  import opened Sequences
  import opened Wrappers

  ghost function Views(xs: seq<Sequence>): (vs: seq<Seq>)
    reads xs
    ensures |vs| == |xs|
  {
    seq(|xs|, i requires 0 <= i < |xs| reads xs => xs[i].View())
  }

  /** The queue without its first occurrence of x. */
  function Remove<T(==)>(xs: seq<T>, x: T): seq<T> {
    if xs == [] then []
    else if xs[0] == x then xs[1..]
    else [xs[0]] + Remove(xs[1..], x)
  }

  lemma {:induction false} RemoveKeeps<T>(xs: seq<T>, x: T)
    requires NoDup(xs)
    ensures NoDup(Remove(xs, x))
    ensures forall j | 0 <= j < |Remove(xs, x)| :: Remove(xs, x)[j] in xs && Remove(xs, x)[j] != x
    ensures forall j | 0 <= j < |xs| && xs[j] != x :: xs[j] in Remove(xs, x)
    ensures x in xs ==> |Remove(xs, x)| == |xs| - 1
    ensures x !in xs ==> Remove(xs, x) == xs
  {
    if xs != [] {
      var rest := xs[1..];
      assert xs == [xs[0]] + rest;
      RemoveKeeps(rest, x);
      if xs[0] == x {
        assert x !in rest;
      } else {
        var r := Remove(rest, x);
        assert Remove(xs, x) == [xs[0]] + r;
        forall j | 0 <= j < |r| ensures r[j] != xs[0] { assert r[j] in rest; }
        forall j | 0 <= j < |xs| && xs[j] != x ensures xs[j] in Remove(xs, x) {
          if j > 0 { assert rest[j - 1] in r; }
        }
      }
    }
  }

  lemma {:induction false} RemoveAt<T>(xs: seq<T>, k: nat)
    requires k < |xs| && NoDup(xs)
    ensures Remove(xs, xs[k]) == xs[..k] + xs[k + 1..]
  {
    if k > 0 {
      var rest := xs[1..];
      RemoveAt(rest, k - 1);
      assert rest[k - 1] == xs[k];
      assert [xs[0]] + (rest[..k - 1] + rest[k..]) == xs[..k] + xs[k + 1..];
    }
  }

  lemma IndexIn<T>(xs: seq<T>, x: T) returns (k: nat)
    requires x in xs
    ensures k < |xs| && xs[k] == x
  {
    k :| 0 <= k < |xs| && xs[k] == x;
  }

  /** The views after one sequence object of a queue has changed. */
  lemma ViewsUpdated(xs: seq<Sequence>, vs: seq<Seq>, k: nat)
    requires |vs| == |xs| && k < |xs|
    requires forall j | 0 <= j < |xs| && j != k :: xs[j].View() == vs[j]
    ensures Views(xs) == vs[k := xs[k].View()]
  {
  }

  lemma ViewsAppend(xs: seq<Sequence>, s: Sequence)
    ensures Views(xs + [s]) == Views(xs) + [s.View()]
  {
  }
}
