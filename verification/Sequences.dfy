/** Extensional facts about slices, kept apart from the recursive definitions that use them. */
module Sequences {
  lemma Assoc<T>(x: seq<T>, y: seq<T>, z: seq<T>)
    ensures x + (y + z) == (x + y) + z
  {
  }

  lemma SliceConcat<T>(x: seq<T>, y: seq<T>, n: nat)
    requires n <= |x|
    ensures (x + y)[..n] == x[..n]
    ensures (x + y)[n..] == x[n..] + y
  {
  }

  lemma SplitAt<T>(x: seq<T>, n: nat)
    requires n <= |x|
    ensures x == x[..n] + x[n..]
  {
  }

  lemma DropDrop<T>(x: seq<T>, i: nat, n: nat)
    requires i + n <= |x|
    ensures x[i..][n..] == x[i + n..]
    ensures x[i..][..n] == x[i..i + n]
  {
  }

  lemma TakeTake<T>(x: seq<T>, i: nat, j: nat)
    requires i <= j <= |x|
    ensures x[..j][..i] == x[..i]
    ensures x[..j][i..] == x[i..j]
  {
  }

  lemma Split3<T>(x: seq<T>, i: nat, j: nat)
    requires i <= j <= |x|
    ensures x == x[..i] + (x[i..j] + x[j..])
  {
  }

  lemma PrefixSnoc<T>(x: seq<T>, i: nat)
    requires i < |x|
    ensures x[..i + 1] == x[..i] + [x[i]]
  {
  }

  lemma SliceSnoc<T>(x: seq<T>, i: nat, j: nat)
    requires i <= j < |x|
    ensures x[i..j] + [x[j]] == x[i..j + 1]
  {
  }

  lemma MiddleSplit<T>(x: seq<T>, i: nat, j: nat)
    requires i <= j <= |x|
    ensures x[..j] == x[..i] + x[i..j]
    ensures x[i..] == x[i..j] + x[j..]
  {
  }

  lemma Cons<T>(x: seq<T>)
    requires x != []
    ensures x == [x[0]] + x[1..]
  {
  }

  lemma Whole<T>(x: seq<T>)
    ensures x[..|x|] == x == x[0..]
    ensures x + [] == x == [] + x
  {
  }

  lemma SameAt<T>(x: seq<T>, y: seq<T>, k: nat, i: nat)
    requires k <= |x| && k <= |y| && x[..k] == y[..k] && i < k
    ensures x[i] == y[i]
  {
    assert x[..k][i] == y[..k][i];
  }
}
