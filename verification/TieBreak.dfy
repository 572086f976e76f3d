/** What goes first at one place: of two insertions the lexicographically smaller, and insertions before deletions. */
module TieBreaks {
  import opened Sequences
  import opened Changesets
  import opened OpLists
  import opened Follows
  import opened Composition

  /** `x` is smaller at the first unit where the two differ. */
  predicate SmallerAtDifference(x: string, y: string) {
    exists i :: 0 <= i < |x| && i < |y| && x[..i] == y[..i] && x[i] < y[i]
  }

  /** The order of a dictionary: a prefix first, otherwise the smaller at the first difference. */
  predicate Before(x: string, y: string) {
    x <= y || SmallerAtDifference(x, y)
  }

  /** The comparison that breaks ties is that order. */
  lemma {:induction false} LexIsBefore(x: string, y: string)
    ensures LexLeq(x, y) <==> Before(x, y)
  {
    if x != "" && y != "" {
      var u, v := x[1..], y[1..];
      LexIsBefore(u, v);
      Cons(x);
      Cons(y);
      if x[0] == y[0] {
        SameHead(x, y);
      } else {
        OtherHead(x, y);
      }
    }
  }

  lemma SameHead(x: string, y: string)
    requires x != "" && y != "" && x[0] == y[0]
    ensures Before(x, y) <==> Before(x[1..], y[1..])
  {
    SamePrefix(x, y);
    hide SmallerAtDifference;
    DifferenceInTails(x, y);
  }

  lemma SamePrefix(x: string, y: string)
    requires x != "" && y != "" && x[0] == y[0]
    ensures x <= y <==> x[1..] <= y[1..]
  {
    Cons(x);
    Cons(y);
  }

  lemma DifferenceInTails(x: string, y: string)
    requires x != "" && y != "" && x[0] == y[0]
    ensures SmallerAtDifference(x, y) <==> SmallerAtDifference(x[1..], y[1..])
  {
    var u, v := x[1..], y[1..];
    if SmallerAtDifference(x, y) {
      var i :| 0 <= i < |x| && i < |y| && x[..i] == y[..i] && x[i] < y[i];
      SameTails(x, y, i);
      assert u[i - 1] < v[i - 1];
    }
    if SmallerAtDifference(u, v) {
      var j :| 0 <= j < |u| && j < |v| && u[..j] == v[..j] && u[j] < v[j];
      SameTails(x, y, j + 1);
      assert x[j + 1] < y[j + 1];
    }
  }

  lemma SameTails(x: string, y: string, i: nat)
    requires 1 <= i <= |x| && i <= |y| && x[0] == y[0]
    ensures x[..i] == y[..i] <==> x[1..][..i - 1] == y[1..][..i - 1]
  {
    assert x[..i] == [x[0]] + x[1..][..i - 1];
    assert y[..i] == [y[0]] + y[1..][..i - 1];
  }

  lemma OtherHead(x: string, y: string)
    requires x != "" && y != "" && x[0] != y[0]
    ensures Before(x, y) <==> x[0] < y[0]
  {
    if i :| 0 <= i < |x| && i < |y| && x[..i] == y[..i] && x[i] < y[i] {
      if i > 0 {
        SameAt(x, y, i, 0);
        assert false;
      }
    }
    if x[0] < y[0] {
      assert x[..0] == y[..0];
    }
  }

  /** In particular a text goes before whatever extends it. */
  lemma PrefixGoesFirst(x: string, s: string)
    requires s != ""
    ensures LexLeq(x, x + s) && !LexLeq(x + s, x)
  {
    LexIsBefore(x, x + s);
    LexTotal(x, x + s);
    assert |x + s| > |x|;
  }

  /** And the first difference decides, whatever follows it. */
  lemma FirstDifferenceDecides(p: string, c: char, d: char, u: string, v: string)
    requires c < d
    ensures LexLeq(p + [c] + u, p + [d] + v) && !LexLeq(p + [d] + v, p + [c] + u)
  {
    var x, y, i := p + [c] + u, p + [d] + v, |p|;
    assert x[..i] == p == y[..i] && x[i] == c && y[i] == d;
    LexIsBefore(x, y);
    LexTotal(x, y);
  }

  // ------------------------------------------------------------ what Follow makes of it

  /** A single insertion after the first `k` units of a text of `n`. */
  function InsertAt(k: nat, s: string, n: nat): (c: Changeset)
    requires k <= n && s != ""
    ensures Canonical(c) && c.oldLen == n && c.newLen == n + |s|
  {
    InsertLengths(k, s, n - k);
    Changeset(n, n + |s|, Inserting(k, s, n - k))
  }

  function Inserting(k: nat, s: string, m: nat): (ops: seq<Op>) {
    var rest := [Insert(s)] + Keeping(m);
    if k == 0 then rest else [Retain(k)] + rest
  }

  function Keeping(n: nat): (ops: seq<Op>) {
    if n == 0 then [] else [Retain(n)]
  }

  lemma InsertLengths(k: nat, s: string, m: nat)
    requires s != ""
    ensures var ops := Inserting(k, s, m);
            Positive(ops) && Merged(ops) && SrcLen(ops) == k + m && DstLen(ops) == k + |s| + m
  {
    var rest := [Insert(s)] + Keeping(m);
    assert SrcLen(rest) == m && DstLen(rest) == |s| + m by { LengthsConcat([Insert(s)], Keeping(m)); }
    LengthsConcat([Retain(k)], rest);
  }

  lemma InsertRuns(t: string, k: nat, s: string)
    requires k <= |t| && s != ""
    ensures Run(t, InsertAt(k, s, |t|).ops) == t[..k] + (s + t[k..])
  {
    hide Run, SrcLen, DstLen, Merged, Keeping, Positive;
    if k == 0 {
      InsertedFirst(t, s, Inserting(0, s, |t|));
    } else {
      InsertedLater(t, k, s, Inserting(k, s, |t| - k));
    }
  }

  lemma InsertedFirst(t: string, s: string, ops: seq<Op>)
    requires s != "" && ops == [Insert(s)] + Keeping(|t|)
    ensures Positive(ops) && SrcLen(ops) == |t| && Run(t, ops) == t[..0] + (s + t[0..])
  {
    hide Run, SrcLen, Keeping;
    InsertedHead(t, s);
    Whole(t);
    Whole(s + t);
  }

  lemma InsertedLater(t: string, k: nat, s: string, ops: seq<Op>)
    requires s != "" && 0 < k <= |t| && ops == [Retain(k)] + ([Insert(s)] + Keeping(|t| - k))
    ensures Positive(ops) && SrcLen(ops) == |t| && Run(t, ops) == t[..k] + (s + t[k..])
  {
    hide Run, SrcLen, Keeping;
    InsertedHead(t[k..], s);
    RetainedHead(t, k, [Insert(s)] + Keeping(|t| - k));
  }

  lemma RetainedHead(t: string, k: nat, rest: seq<Op>)
    requires 0 < k <= |t| && Positive(rest) && SrcLen(rest) == |t| - k
    ensures Positive([Retain(k)] + rest) && SrcLen([Retain(k)] + rest) == |t|
    ensures Run(t, [Retain(k)] + rest) == t[..k] + Run(t[k..], rest)
  {
    hide Run, SrcLen;
    SplitAt(t, k);
    RunCons(t[..k], t[k..], Retain(k), rest);
  }

  lemma InsertedHead(t: string, s: string)
    requires s != ""
    ensures var ops := [Insert(s)] + Keeping(|t|);
            Positive(ops) && SrcLen(ops) == |t| && Run(t, ops) == s + t
  {
    KeepingRuns(t);
    InsertBefore(t, s, Keeping(|t|));
  }

  lemma InsertBefore(t: string, s: string, rest: seq<Op>)
    requires s != "" && Positive(rest) && SrcLen(rest) == |t|
    ensures Positive([Insert(s)] + rest) && SrcLen([Insert(s)] + rest) == |t|
    ensures Run(t, [Insert(s)] + rest) == s + Run(t, rest)
  {
    hide Run, SrcLen;
    Whole(t);
    RunCons("", t, Insert(s), rest);
  }

  lemma KeepingRuns(t: string)
    ensures Positive(Keeping(|t|)) && SrcLen(Keeping(|t|)) == |t| && Run(t, Keeping(|t|)) == t
  {
    if t != "" {
      RunOne(t, Retain(|t|));
    }
  }

  lemma KeptWalk(n: nat)
    ensures Positive(Keeping(n)) && FollowOps(Keeping(n), Keeping(n)) == Keeping(n)
  {
    if n > 0 {
      var a := Keeping(n);
      AdvanceHead(a, n);
      assert a[1..] == [];
      FollowStretch(a, a, n);
    }
  }

  /** What is left of B at the tie: its text, after A's or before it. */
  function Tied(x: string, y: string): (ops: seq<Op>) {
    if Before(x, y) then [Retain(|x|), Insert(y)] else [Insert(y), Retain(|x|)]
  }

  lemma TiedWalk(x: string, y: string, m: nat)
    requires x != "" && y != ""
    ensures var a, b := [Insert(x)] + Keeping(m), [Insert(y)] + Keeping(m);
            Positive(a) && Positive(b) && FollowOps(a, b) == Tied(x, y) + Keeping(m)
  {
    var k := Keeping(m);
    var a, b := [Insert(x)] + k, [Insert(y)] + k;
    KeptWalk(m);
    LexIsBefore(x, y);
    hide LexLeq, Before;
    TailOfCons(Insert(x), k);
    TailOfCons(Insert(y), k);
    assert !HeadInsert(k);
    hide Keeping;
    if LexLeq(x, y) {
      assert FollowOps(k, b) == [Insert(y)] + k;
      assert FollowOps(a, b) == [Retain(|x|)] + ([Insert(y)] + k);
    } else {
      assert FollowOps(a, k) == [Retain(|x|)] + k;
      assert FollowOps(a, b) == [Insert(y)] + ([Retain(|x|)] + k);
    }
  }

  lemma InsertsWalk(k: nat, x: string, y: string, m: nat)
    requires x != "" && y != ""
    ensures var a, b := Inserting(k, x, m), Inserting(k, y, m);
            Positive(a) && Positive(b) && FollowOps(a, b) == Keeping(k) + (Tied(x, y) + Keeping(m))
  {
    TiedWalk(x, y, m);
    var a, b := [Insert(x)] + Keeping(m), [Insert(y)] + Keeping(m);
    if k > 0 {
      BothKept(k, a, b);
    } else {
      Whole(Tied(x, y) + Keeping(m));
    }
  }

  lemma BothKept(k: nat, a: seq<Op>, b: seq<Op>)
    requires k > 0 && Positive(a) && Positive(b)
    ensures var a', b' := [Retain(k)] + a, [Retain(k)] + b;
            Positive(a') && Positive(b') && FollowOps(a', b') == [Retain(k)] + FollowOps(a, b)
  {
    PastKept(k, a);
    PastKept(k, b);
    hide Advance, FollowOps;
    FollowStretch([Retain(k)] + a, [Retain(k)] + b, k);
  }

  lemma PastKept(k: nat, rest: seq<Op>)
    requires k > 0 && Positive(rest)
    ensures var ops := [Retain(k)] + rest; Positive(ops) && Advance(ops, k) == rest
  {
    var ops := [Retain(k)] + rest;
    assert ops[1..] == rest;
    AdvanceHead(ops, k);
  }

  // ------------------------------------------------------------ merged

  lemma MergedOnto(acc: seq<Op>, m: nat)
    ensures m == 0 ==> AddAll(acc, Keeping(m)) == acc
    ensures m > 0 ==> AddAll(acc, Keeping(m)) == AddOp(acc, Retain(m))
  {
    hide AddOp;
    if m > 0 {
      assert Keeping(m)[1..] == [];
    }
  }

  lemma MergedKeeping(k: nat, p: nat)
    ensures AddAll([], Keeping(k)) == Keeping(k)
    ensures p > 0 ==> AddOp(Keeping(k), Retain(p)) == Keeping(k + p)
  {
    MergedOnto([], k);
  }

  lemma MergedAfter(k: nat, y: string, m: nat)
    ensures AddOp(Keeping(k), Insert(y)) == Keeping(k) + [Insert(y)]
    ensures m > 0 ==> AddOp(Keeping(k) + [Insert(y)], Retain(m)) == Keeping(k) + [Insert(y)] + Keeping(m)
  {
  }

  lemma MergedAgain(k: nat, y: string, p: nat, m: nat)
    requires p > 0 && m > 0
    ensures AddOp(Keeping(k) + [Insert(y)] + Keeping(p), Retain(m)) == Keeping(k) + [Insert(y)] + Keeping(p + m)
  {
    var acc := Keeping(k) + [Insert(y)];
    assert (acc + [Retain(p)])[..|acc|] == acc;
  }

  lemma AddTwo(acc: seq<Op>, p: Op, q: Op)
    ensures AddAll(acc, [p, q]) == AddOp(AddOp(acc, p), q)
  {
    hide AddOp;
    assert [p, q][1..] == [q] && [q][1..] == [];
    assert AddAll(AddOp(acc, p), [q]) == AddAll(AddOp(AddOp(acc, p), q), []);
  }

  lemma MergedBehind(k: nat, x: string, y: string, m: nat)
    requires x != "" && y != ""
    ensures AddAll([], Keeping(k) + ([Retain(|x|), Insert(y)] + Keeping(m)))
         == Inserting(k + |x|, y, m)
  {
    hide AddOp, AddAll, Keeping, Inserting;
    var mid, acc := [Retain(|x|), Insert(y)], Keeping(k + |x|) + [Insert(y)];
    AddAllConcat([], Keeping(k), mid + Keeping(m));
    AddAllConcat(Keeping(k), mid, Keeping(m));
    MergedKeeping(k, |x|);
    AddTwo(Keeping(k), Retain(|x|), Insert(y));
    MergedAfter(k + |x|, y, m);
    assert AddAll(Keeping(k), mid) == acc;
    MergedOnto(acc, m);
    NothingAfter(acc);
    InsertingIs(k + |x|, y, m);
  }

  lemma MergedBefore(k: nat, x: string, y: string, m: nat)
    requires x != "" && y != ""
    ensures AddAll([], Keeping(k) + ([Insert(y), Retain(|x|)] + Keeping(m)))
         == Inserting(k, y, |x| + m)
  {
    hide AddOp, AddAll, Keeping, Inserting;
    var mid, acc := [Insert(y), Retain(|x|)], Keeping(k) + [Insert(y)] + Keeping(|x|);
    AddAllConcat([], Keeping(k), mid + Keeping(m));
    AddAllConcat(Keeping(k), mid, Keeping(m));
    MergedKeeping(k, |x|);
    AddTwo(Keeping(k), Insert(y), Retain(|x|));
    MergedAfter(k, y, |x|);
    assert AddAll(Keeping(k), mid) == acc;
    InsertingIs(k, y, |x| + m);
    if m > 0 {
      MergedOnto(acc, m);
      MergedAgain(k, y, |x|, m);
    } else {
      MergedOnto(acc, 0);
    }
  }

  lemma InsertingIs(k: nat, s: string, m: nat)
    ensures Inserting(k, s, m) == Keeping(k) + [Insert(s)] + Keeping(m)
  {
  }

  lemma NothingAfter(ops: seq<Op>)
    ensures ops + Keeping(0) == ops
  {
  }

  /**
   * An insertion rebased past another at the same place goes behind it exactly when that one comes
   * first in the dictionary; of two equal texts it is the one already there.
   */
  lemma RebasedInsert(n: nat, k: nat, x: string, y: string)
    requires k <= n && x != "" && y != ""
    ensures Follow(InsertAt(k, x, n), InsertAt(k, y, n)) == InsertAt(if Before(x, y) then k + |x| else k, y, n + |x|)
  {
    hide FollowOps, AddAll, AddOp, Keeping, Before, DstLen, SrcLen, Positive, Merged, Inserting;
    InsertsWalk(k, x, y, n - k);
    if Before(x, y) {
      InsertLengths(k + |x|, y, n - k);
      MergedBehind(k, x, y, n - k);
    } else {
      InsertLengths(k, y, n + |x| - k);
      MergedBefore(k, x, y, n - k);
    }
  }

  lemma InsertTwice(t: string, k: nat, x: string, y: string)
    requires k <= |t| && x != "" && y != ""
    ensures var u := t[..k] + (x + t[k..]);
            && |u| == |t| + |x| && Run(t, InsertAt(k, x, |t|).ops) == u
            && Run(u, InsertAt(k + |x|, y, |u|).ops) == t[..k] + (x + (y + t[k..]))
            && Run(u, InsertAt(k, y, |u|).ops) == t[..k] + (y + (x + t[k..]))
  {
    hide Run, InsertAt;
    var u := t[..k] + (x + t[k..]);
    InsertRuns(t, k, x);
    InsertRuns(u, k + |x|, y);
    InsertRuns(u, k, y);
    SlicesAround(t, k, x, y);
  }

  lemma SlicesAround(t: string, k: nat, x: string, y: string)
    requires k <= |t|
    ensures var u := t[..k] + (x + t[k..]);
            && u[..k + |x|] == t[..k] + x && u[k + |x|..] == t[k..] && u[..k] == t[..k] && u[k..] == x + t[k..]
            && (t[..k] + x) + (y + t[k..]) == t[..k] + (x + (y + t[k..]))
  {
  }

  /** In both orders the text that comes first in the dictionary stands on the left. */
  lemma TiedInsertsInOrder(t: string, k: nat, x: string, y: string)
    requires k <= |t| && x != "" && y != "" && Before(x, y)
    ensures var A, B, both := InsertAt(k, x, |t|), InsertAt(k, y, |t|), t[..k] + (x + (y + t[k..]));
            && Valid(Follow(A, B)) && Follow(A, B).oldLen == |Run(t, A.ops)|
            && Run(Run(t, A.ops), Follow(A, B).ops) == both
            && Valid(Follow(B, A)) && Follow(B, A).oldLen == |Run(t, B.ops)|
            && Run(Run(t, B.ops), Follow(B, A).ops) == both
  {
    NotBothBefore(x, y);
    hide Run, Follow, Before, InsertAt;
    RebasedInsert(|t|, k, x, y);
    RebasedInsert(|t|, k, y, x);
    InsertTwice(t, k, x, y);
    InsertTwice(t, k, y, x);
  }

  lemma NotBothBefore(x: string, y: string)
    ensures Before(x, y) && Before(y, x) ==> x == y
  {
    LexIsBefore(x, y);
    LexIsBefore(y, x);
    LexTotal(x, y);
  }

  // ------------------------------------------------------------ an insertion where something was deleted

  lemma {:induction false} AddAllMerged(acc: seq<Op>, ops: seq<Op>)
    requires Merged(acc + ops)
    ensures AddAll(acc, ops) == acc + ops
    decreases ops
  {
    if ops == [] {
      Whole(acc);
    } else {
      var k := |acc|;
      Cons(ops);
      Assoc(acc, [ops[0]], ops[1..]);
      assert k > 0 ==> (acc + ops)[k - 1] == acc[k - 1] && (acc + ops)[k - 1 + 1] == ops[0];
      AddAllMerged(acc + [ops[0]], ops[1..]);
    }
  }

  lemma ComposedHead(k: nat, a: seq<Op>, b: seq<Op>)
    requires k > 0 && Positive(a) && Positive(b)
    ensures Positive([Retain(k)] + a) && Positive([Retain(k)] + b)
    ensures ComposeOps([Retain(k)] + a, [Retain(k)] + b) == [Retain(k)] + ComposeOps(a, b)
  {
    PastKept(k, a);
    PastKept(k, b);
    var a', b' := [Retain(k)] + a, [Retain(k)] + b;
    hide Advance, Units;
    assert ComposeOps(a', b') == Combined(a'[0], b'[0], k) + ComposeOps(Advance(a', k), Advance(b', k));
  }

  lemma ComposedDelete(d: int, a: seq<Op>, b: seq<Op>)
    requires d > 0 && Positive(a) && Positive(b) && !HeadInsert(b)
    ensures Positive([Delete(d)] + a) && ComposeOps([Delete(d)] + a, b) == [Delete(d)] + ComposeOps(a, b)
  {
    TailOfCons(Delete(d), a);
  }

  lemma ComposedInsert(s: string, a: seq<Op>, b: seq<Op>)
    requires s != "" && Positive(a) && Positive(b)
    ensures Positive([Insert(s)] + b) && ComposeOps(a, [Insert(s)] + b) == [Insert(s)] + ComposeOps(a, b)
  {
    TailOfCons(Insert(s), b);
  }

  lemma ComposedTie(d: int, s: string, a: seq<Op>, b: seq<Op>)
    requires d > 0 && s != "" && Positive(a) && Positive(b) && !HeadInsert(b)
    ensures Positive([Delete(d)] + a) && Positive([Insert(s)] + b)
    ensures ComposeOps([Delete(d)] + a, [Insert(s)] + b) == [Insert(s), Delete(d)] + ComposeOps(a, b)
  {
    hide ComposeOps, Units, Positive;
    ComposedDelete(d, a, b);
    ComposedInsert(s, [Delete(d)] + a, b);
    assert [Insert(s), Delete(d)] == [Insert(s)] + [Delete(d)];
    Assoc([Insert(s)], [Delete(d)], ComposeOps(a, b));
  }

  lemma ComposedWalk(k: nat, d: int, s: string, m: nat)
    requires d > 0 && s != ""
    ensures var a, b := Keeping(k) + ([Delete(d)] + Keeping(m)), Inserting(k, s, m);
            && Positive(a) && Positive(b)
            && ComposeOps(a, b) == Keeping(k) + ([Insert(s), Delete(d)] + Keeping(m))
  {
    hide ComposeOps;
    ComposedTie(d, s, Keeping(m), Keeping(m));
    ComposedKept(m);
    if k > 0 {
      ComposedHead(k, [Delete(d)] + Keeping(m), [Insert(s)] + Keeping(m));
    } else {
      Whole([Delete(d)] + Keeping(m));
      Whole([Insert(s), Delete(d)] + Keeping(m));
    }
  }

  lemma ReplacementMerged(k: nat, d: int, s: string, m: nat)
    ensures Merged(Keeping(k) + ([Insert(s), Delete(d)] + Keeping(m)))
  {
  }

  /** In a composition what B inserts goes before what A deleted at that place. */
  lemma ComposedInsertGoesFirst(k: nat, d: int, s: string, m: nat)
    requires d > 0 && s != ""
    ensures Positive(Keeping(k) + ([Delete(d)] + Keeping(m)))
    ensures var A := Changeset(k + d + m, k + m, Keeping(k) + ([Delete(d)] + Keeping(m)));
            Compose(A, InsertAt(k, s, k + m)).ops == Keeping(k) + ([Insert(s), Delete(d)] + Keeping(m))
  {
    hide ComposeOps, AddAll, Keeping, Inserting, Merged, Positive, SrcLen, DstLen;
    ComposedWalk(k, d, s, m);
    ReplacementMerged(k, d, s, m);
    var r := Keeping(k) + ([Insert(s), Delete(d)] + Keeping(m));
    Whole(r);
    AddAllMerged([], r);
  }

  lemma ComposedKept(m: nat)
    ensures Positive(Keeping(m)) && ComposeOps(Keeping(m), Keeping(m)) == Keeping(m)
  {
    if m > 0 {
      ComposedHead(m, [], []);
      Whole(Keeping(m));
    }
  }
}
