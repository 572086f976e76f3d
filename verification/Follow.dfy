/** Follow(A, B): B rebased to apply after A, as a recursive walk and as the source's loop over two cursors. */
module Follows {
  import opened Numbers
  import opened Sequences
  import opened Changesets
  import opened OpLists

  /** The order on insertion texts that breaks ties. */
  predicate LexLeq(x: string, y: string) {
    x == "" || (y != "" && (x[0] < y[0] || (x[0] == y[0] && LexLeq(x[1..], y[1..]))))
  }

  lemma {:induction false} LexTotal(x: string, y: string)
    ensures LexLeq(x, y) || LexLeq(y, x)
    ensures LexLeq(x, y) && LexLeq(y, x) ==> x == y
  {
    if x != "" && y != "" {
      LexTotal(x[1..], y[1..]);
      Cons(x);
      Cons(y);
    }
  }

  /** A's insertion goes next: B has none here, or A's text wins the comparison. */
  predicate TakesA(a: seq<Op>, b: seq<Op>) {
    HeadInsert(a) && (HeadInsert(b) ==> LexLeq(a[0].chars, b[0].chars))
  }

  /** Both cursors stand on document units. */
  predicate OnDocument(a: seq<Op>, b: seq<Op>) {
    a != [] && b != [] && !HeadInsert(a) && !HeadInsert(b)
  }

  /** What B must still do to `n` document units that A and B treated this way. */
  function Rebased(aOp: Op, bOp: Op, n: nat): (r: seq<Op>) {
    if aOp.Retain? && bOp.Retain? then [Retain(n)]
    else if aOp.Retain? && bOp.Delete? then [Delete(n)]
    else []
  }

  /** The recursive form of the walk, before neighbours are merged. */
  function FollowOps(a: seq<Op>, b: seq<Op>): (r: seq<Op>)
    requires Positive(a) && Positive(b)
    ensures Positive(r)
    decreases Units(a) + Units(b)
  {
    if TakesA(a, b) then [Retain(|a[0].chars|)] + FollowOps(a[1..], b)
    else if HeadInsert(b) then [b[0]] + FollowOps(a, b[1..])
    else if OnDocument(a, b) then
      var n := Min(a[0].len, b[0].len);
      UnitsHead(a);
      UnitsHead(b);
      Rebased(a[0], b[0], n) + FollowOps(Advance(a, n), Advance(b, n))
    else []
  }

  lemma UnitsHead(ops: seq<Op>)
    requires Positive(ops) && ops != []
    ensures 0 < Size(ops[0]) <= Units(ops)
  {
  }

  /** Follow as a function of changesets: merged operations and a recomputed length. */
  function Follow(A: Changeset, B: Changeset): (r: Changeset)
    requires Positive(A.ops) && Positive(B.ops)
    ensures Positive(r.ops) && r.oldLen == A.newLen && DstLen(r.ops) == r.newLen
  {
    var ops := AddAll([], FollowOps(A.ops, B.ops));
    Changeset(A.newLen, DstLen(ops), ops)
  }

  // ------------------------------------------------------------ the cursor form

  /** Both read the same number of document units. */
  predicate SameSource(a: seq<Op>, b: seq<Op>) {
    SrcLen(a) == SrcLen(b)
  }

  /** The walk over `a` and `b`, with `acc` written, is what is left of the walk over `A` and `B`. */
  ghost predicate Following(acc: seq<Op>, a: seq<Op>, b: seq<Op>, A: seq<Op>, B: seq<Op>) {
    && Positive(a) && Positive(b) && Positive(A) && Positive(B)
    && AddAll(acc, FollowOps(a, b)) == AddAll([], FollowOps(A, B))
    && (SameSource(A, B) ==> SameSource(a, b))
  }

  lemma FollowBegins(A: seq<Op>, B: seq<Op>)
    requires Positive(A) && Positive(B)
    ensures Following([], A, B, A, B)
  {
  }

  lemma FollowStepA(acc: seq<Op>, a: seq<Op>, b: seq<Op>, A: seq<Op>, B: seq<Op>)
    requires Following(acc, a, b, A, B) && TakesA(a, b)
    ensures Positive(a) && 0 < |a[0].chars| <= Units(a)
    ensures Following(AddOp(acc, Retain(|a[0].chars|)), Advance(a, |a[0].chars|), b, A, B)
  {
    AdvanceHead(a, |a[0].chars|);
    AddAllCons(acc, Retain(|a[0].chars|), FollowOps(a[1..], b));
  }

  lemma FollowStepB(acc: seq<Op>, a: seq<Op>, b: seq<Op>, A: seq<Op>, B: seq<Op>)
    requires Following(acc, a, b, A, B) && !TakesA(a, b) && HeadInsert(b)
    ensures Positive(b) && 0 < |b[0].chars| <= Units(b)
    ensures Following(AddOp(acc, b[0]), a, Advance(b, |b[0].chars|), A, B)
  {
    AdvanceHead(b, |b[0].chars|);
    AddAllCons(acc, b[0], FollowOps(a, b[1..]));
  }

  lemma FollowStepBoth(acc: seq<Op>, a: seq<Op>, b: seq<Op>, n: int, A: seq<Op>, B: seq<Op>)
    requires Following(acc, a, b, A, B) && OnDocument(a, b) && n == Min(a[0].len, b[0].len)
    ensures Positive(a) && Positive(b) && 0 < n <= Units(a) && n <= Units(b)
    ensures var e := Rebased(a[0], b[0], n);
            Following(if e == [] then acc else AddOp(acc, e[0]), Advance(a, n), Advance(b, n), A, B)
  {
    UnitsHead(a);
    UnitsHead(b);
    FollowStretch(a, b, n);
    hide FollowOps, AddAll, Units, SameSource, Advance;
    var e := Rebased(a[0], b[0], n);
    var rest := FollowOps(Advance(a, n), Advance(b, n));
    if e == [] {
      Whole(rest);
    } else {
      assert e == [e[0]];
      AddAllCons(acc, e[0], rest);
    }
  }

  lemma FollowStretch(a: seq<Op>, b: seq<Op>, n: nat)
    requires Positive(a) && Positive(b) && OnDocument(a, b) && n == Min(a[0].len, b[0].len)
    ensures FollowOps(a, b) == Rebased(a[0], b[0], n) + FollowOps(Advance(a, n), Advance(b, n))
    ensures SameSource(a, b) ==> SameSource(Advance(a, n), Advance(b, n))
  {
    UnitsHead(a);
    UnitsHead(b);
    AdvanceLengths(a, n);
    AdvanceLengths(b, n);
  }

  lemma AddOpDst(acc: seq<Op>, op: Op)
    requires NonNegative(acc) && Size(op) >= 0
    ensures DstLen(AddOp(acc, op)) == DstLen(acc) + Dst(op)
  {
    LengthsNonNegative(acc);
    AddOpMeaning(seq(SrcLen(acc) + Src(op), _ => ' '), acc, op);
  }

  /** Appends to the result under construction and keeps its running length. */
  class Builder {
    var ops: seq<Op>
    var newLen: int

    constructor ()
      ensures ops == [] && newLen == 0
    {
      ops, newLen := [], 0;
    }

    method Add(op: Op)
      requires Positive(ops) && Size(op) > 0 && newLen == DstLen(ops)
      modifies this
      ensures ops == AddOp(old(ops), op) && Positive(ops) && newLen == DstLen(ops)
    {
      AddOpDst(ops, op);
      if ops != [] {
        var k := |ops| - 1;
        match (ops[k], op) {
          case (Retain(m), Retain(n)) =>
            ops := ops[..k] + [Retain(m + n)];
            newLen := newLen + n;
            return;
          case (Delete(m), Delete(n)) =>
            ops := ops[..k] + [Delete(m + n)];
            return;
          case (Insert(s), Insert(u)) =>
            ops := ops[..k] + [Insert(s + u)];
            newLen := newLen + |u|;
            return;
          case _ =>
        }
      }
      ops := ops + [op];
      match op {
        case Retain(n) => newLen := newLen + n;
        case Insert(s) => newLen := newLen + |s|;
        case Delete(_) =>
      }
    }
  }

  /** What is left of the walk over `A` and `B`, as the objects of the loop hold it. */
  ghost predicate Underway(result: Builder, aCur: OpCursor, bCur: OpCursor, A: seq<Op>, B: seq<Op>)
    reads result, aCur, bCur
  {
    && aCur.Valid() && bCur.Valid() && aCur != bCur && result.newLen == DstLen(result.ops) && Positive(result.ops)
    && Following(result.ops, aCur.Remaining(), bCur.Remaining(), A, B)
  }

  /** A's insertion goes next: the rebased list keeps it. */
  method TakeA(result: Builder, aCur: OpCursor, bCur: OpCursor, s: string, ghost A: seq<Op>, ghost B: seq<Op>)
    requires Underway(result, aCur, bCur, A, B)
    requires TakesA(aCur.Remaining(), bCur.Remaining()) && aCur.Remaining()[0] == Insert(s)
    modifies result, aCur
    ensures Underway(result, aCur, bCur, A, B)
    ensures Units(aCur.Remaining()) < old(Units(aCur.Remaining())) && bCur.Remaining() == old(bCur.Remaining())
  {
    hide FollowOps, AddAll, AddOp, Advance, DstLen, Units, Positive, LexLeq, OpCursor.Valid, OpCursor.Remaining,
         Following;
    FollowStepA(result.ops, aCur.Remaining(), bCur.Remaining(), A, B);
    result.Add(Retain(|s|));
    aCur.Consume(|s|);
  }

  /** B's insertion goes next: the rebased list makes it. */
  method TakeB(result: Builder, aCur: OpCursor, bCur: OpCursor, s: string, ghost A: seq<Op>, ghost B: seq<Op>)
    requires Underway(result, aCur, bCur, A, B)
    requires !TakesA(aCur.Remaining(), bCur.Remaining()) && bCur.Remaining() != [] && bCur.Remaining()[0] == Insert(s)
    modifies result, bCur
    ensures Underway(result, aCur, bCur, A, B)
    ensures Units(bCur.Remaining()) < old(Units(bCur.Remaining())) && aCur.Remaining() == old(aCur.Remaining())
  {
    hide FollowOps, AddAll, AddOp, Advance, DstLen, Units, Positive, TakesA, OpCursor.Valid, OpCursor.Remaining,
         Following;
    FollowStepB(result.ops, aCur.Remaining(), bCur.Remaining(), A, B);
    result.Add(Insert(s));
    bCur.Consume(|s|);
  }

  /** Both stand on document units: as many as both cover. */
  method TakeBoth(result: Builder, aCur: OpCursor, bCur: OpCursor, aOp: Op, bOp: Op, ghost A: seq<Op>, ghost B: seq<Op>)
    requires Underway(result, aCur, bCur, A, B) && OnDocument(aCur.Remaining(), bCur.Remaining())
    requires aOp == aCur.Remaining()[0] && bOp == bCur.Remaining()[0]
    modifies result, aCur, bCur
    ensures Underway(result, aCur, bCur, A, B)
    ensures Units(aCur.Remaining()) + Units(bCur.Remaining()) < old(Units(aCur.Remaining()) + Units(bCur.Remaining()))
  {
    hide FollowOps, AddAll, AddOp, Advance, DstLen, Units, Positive, OpCursor.Valid, OpCursor.Remaining, Following;
    var n := aOp.len;
    if bOp.len < n {
      n := bOp.len;
    }
    FollowStepBoth(result.ops, aCur.Remaining(), bCur.Remaining(), n, A, B);
    if aOp.Retain? && bOp.Retain? {
      result.Add(Retain(n));
    } else if aOp.Retain? && bOp.Delete? {
      result.Add(Delete(n));
    }
    aCur.Consume(n);
    bCur.Consume(n);
  }

  /** Follow: two cursors, the tie-break, and merging as the result grows. */
  method ComputeFollow(A: Changeset, B: Changeset) returns (r: Changeset)
    requires Positive(A.ops) && Positive(B.ops)
    ensures r == Follow(A, B)
  {
    hide FollowOps, AddAll, AddOp, Advance, DstLen, Units, Positive, LexLeq, OpCursor.Valid, OpCursor.Remaining,
         SameSource, Following;
    var result := new Builder();
    var aCur := new OpCursor(A.ops);
    var bCur := new OpCursor(B.ops);
    EmptyLength();
    FollowBegins(A.ops, B.ops);
    while true
      invariant Underway(result, aCur, bCur, A.ops, B.ops)
      decreases Units(aCur.Remaining()) + Units(bCur.Remaining())
    {
      var aOp := aCur.Peek();
      var bOp := bCur.Peek();
      if aOp.None? && bOp.None? {
        break;
      }
      if aOp.Some? && aOp.value.Insert? && bOp.Some? && bOp.value.Insert? {
        if LexLeq(aOp.value.chars, bOp.value.chars) {
          TakeA(result, aCur, bCur, aOp.value.chars, A.ops, B.ops);
        } else {
          TakeB(result, aCur, bCur, bOp.value.chars, A.ops, B.ops);
        }
        continue;
      }
      if aOp.Some? && aOp.value.Insert? {
        TakeA(result, aCur, bCur, aOp.value.chars, A.ops, B.ops);
        continue;
      }
      if bOp.Some? && bOp.value.Insert? {
        TakeB(result, aCur, bCur, bOp.value.chars, A.ops, B.ops);
        continue;
      }
      if aOp.None? || bOp.None? {
        break;
      }
      TakeBoth(result, aCur, bCur, aOp.value, bOp.value, A.ops, B.ops);
    }
    FollowEnds(result.ops, aCur.Remaining(), bCur.Remaining(), A.ops, B.ops);
    assert SameSource(A.ops, B.ops) ==> aCur.Remaining() == [] && bCur.Remaining() == [];
    return Changeset(A.newLen, result.newLen, result.ops);
  }

  lemma EmptyLength()
    ensures DstLen([]) == 0 && SrcLen([]) == 0 && Positive([])
  {
  }

  /** The loop ends with everything written and, for fitting arguments, both cursors exhausted. */
  lemma FollowEnds(acc: seq<Op>, a: seq<Op>, b: seq<Op>, A: seq<Op>, B: seq<Op>)
    requires Following(acc, a, b, A, B) && !HeadInsert(a) && !HeadInsert(b) && (a == [] || b == [])
    ensures acc == AddAll([], FollowOps(A, B))
    ensures SameSource(A, B) ==> a == [] && b == []
  {
    DocumentLeft(a);
    DocumentLeft(b);
  }
}
