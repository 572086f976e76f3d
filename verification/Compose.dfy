/** Compose(A, B): one changeset with the effect of A followed by B. */
module Composition {
  import opened Numbers
  import opened Sequences
  import opened Changesets
  import opened OpLists
  import opened Follows

  predicate HeadDelete(ops: seq<Op>) {
    ops != [] && ops[0].Delete?
  }

  /** What `n` units of A's output come to once B has treated them. */
  function Combined(aOp: Op, bOp: Op, n: nat): (r: seq<Op>)
    requires n <= Size(aOp)
  {
    if aOp.Retain? && bOp.Retain? then [Retain(n)]
    else if aOp.Retain? && bOp.Delete? then [Delete(n)]
    else if aOp.Insert? && bOp.Retain? then [Chunk(aOp, n)]
    else []
  }

  /** The recursive form of the walk, before neighbours are merged. */
  function ComposeOps(a: seq<Op>, b: seq<Op>): (r: seq<Op>)
    requires Positive(a) && Positive(b)
    ensures Positive(r)
    decreases Units(a) + Units(b)
  {
    if HeadInsert(b) then [b[0]] + ComposeOps(a, b[1..])
    else if HeadDelete(a) then [a[0]] + ComposeOps(a[1..], b)
    else if a == [] || b == [] then []
    else
      var n := Min(Size(a[0]), Size(b[0]));
      UnitsHead(a);
      UnitsHead(b);
      Combined(a[0], b[0], n) + ComposeOps(Advance(a, n), Advance(b, n))
  }

  function Compose(A: Changeset, B: Changeset): (r: Changeset)
    requires Positive(A.ops) && Positive(B.ops)
    ensures Positive(r.ops) && Merged(r.ops) && r.oldLen == A.oldLen && r.newLen == B.newLen
  {
    Changeset(A.oldLen, B.newLen, AddAll([], ComposeOps(A.ops, B.ops)))
  }

  // ------------------------------------------------------------ the cursor form

  /** B reads as many units as A writes. */
  predicate Abuts(a: seq<Op>, b: seq<Op>) {
    DstLen(a) == SrcLen(b)
  }

  /** The walk over `a` and `b`, with `acc` written, is what is left of the walk over `A` and `B`. */
  ghost predicate Composing(acc: seq<Op>, a: seq<Op>, b: seq<Op>, A: seq<Op>, B: seq<Op>) {
    && Positive(a) && Positive(b) && Positive(A) && Positive(B)
    && AddAll(acc, ComposeOps(a, b)) == AddAll([], ComposeOps(A, B))
    && (Abuts(A, B) ==> Abuts(a, b))
  }

  lemma ComposeBegins(A: seq<Op>, B: seq<Op>)
    requires Positive(A) && Positive(B)
    ensures Composing([], A, B, A, B)
  {
  }

  lemma ComposeStepB(acc: seq<Op>, a: seq<Op>, b: seq<Op>, A: seq<Op>, B: seq<Op>)
    requires Composing(acc, a, b, A, B) && HeadInsert(b)
    ensures Positive(b) && 0 < |b[0].chars| <= Units(b)
    ensures Composing(AddOp(acc, b[0]), a, Advance(b, |b[0].chars|), A, B)
  {
    AdvanceHead(b, |b[0].chars|);
    AddAllCons(acc, b[0], ComposeOps(a, b[1..]));
  }

  lemma ComposeStepA(acc: seq<Op>, a: seq<Op>, b: seq<Op>, A: seq<Op>, B: seq<Op>)
    requires Composing(acc, a, b, A, B) && !HeadInsert(b) && HeadDelete(a)
    ensures Positive(a) && 0 < a[0].len <= Units(a)
    ensures Composing(AddOp(acc, a[0]), Advance(a, a[0].len), b, A, B)
  {
    AdvanceHead(a, a[0].len);
    AddAllCons(acc, a[0], ComposeOps(a[1..], b));
  }

  lemma ComposeStepBoth(acc: seq<Op>, a: seq<Op>, b: seq<Op>, n: int, A: seq<Op>, B: seq<Op>)
    requires Composing(acc, a, b, A, B) && a != [] && b != [] && !HeadInsert(b) && !HeadDelete(a)
    requires n == Min(Size(a[0]), Size(b[0]))
    ensures Positive(a) && Positive(b) && 0 < n <= Units(a) && n <= Units(b)
    ensures var e := Combined(a[0], b[0], n);
            Composing(if e == [] then acc else AddOp(acc, e[0]), Advance(a, n), Advance(b, n), A, B)
  {
    UnitsHead(a);
    UnitsHead(b);
    ComposeStretch(a, b, n);
    hide ComposeOps, AddAll, Units, Abuts, Advance;
    var e := Combined(a[0], b[0], n);
    var rest := ComposeOps(Advance(a, n), Advance(b, n));
    if e == [] {
      Whole(rest);
    } else {
      assert e == [e[0]];
      AddAllCons(acc, e[0], rest);
    }
  }

  lemma ComposeStretch(a: seq<Op>, b: seq<Op>, n: nat)
    requires Positive(a) && Positive(b) && a != [] && b != [] && !HeadInsert(b) && !HeadDelete(a)
    requires n == Min(Size(a[0]), Size(b[0]))
    ensures ComposeOps(a, b) == Combined(a[0], b[0], n) + ComposeOps(Advance(a, n), Advance(b, n))
    ensures Abuts(a, b) ==> Abuts(Advance(a, n), Advance(b, n))
  {
    UnitsHead(a);
    UnitsHead(b);
    AdvanceLengths(a, n);
    AdvanceLengths(b, n);
  }

  /** The loop ends with everything written and, for fitting arguments, both cursors exhausted. */
  lemma ComposeEnds(acc: seq<Op>, a: seq<Op>, b: seq<Op>, A: seq<Op>, B: seq<Op>)
    requires Composing(acc, a, b, A, B) && !HeadInsert(b) && !HeadDelete(a) && (a == [] || b == [])
    ensures acc == AddAll([], ComposeOps(A, B))
    ensures Abuts(A, B) ==> a == [] && b == []
  {
    OutputLeft(a);
    DocumentLeft(b);
  }

  /** What is left of the walk over `A` and `B`, as the objects of the loop hold it. */
  ghost predicate Underway(result: Builder, aCur: OpCursor, bCur: OpCursor, A: seq<Op>, B: seq<Op>)
    reads result, aCur, bCur
  {
    && aCur.Valid() && bCur.Valid() && aCur != bCur && result.newLen == DstLen(result.ops) && Positive(result.ops)
    && Composing(result.ops, aCur.Remaining(), bCur.Remaining(), A, B)
  }

  /** B inserts: nothing of A is consumed. */
  method TakeInsert(result: Builder, aCur: OpCursor, bCur: OpCursor, s: string, ghost A: seq<Op>, ghost B: seq<Op>)
    requires Underway(result, aCur, bCur, A, B) && bCur.Remaining() != [] && bCur.Remaining()[0] == Insert(s)
    modifies result, bCur
    ensures Underway(result, aCur, bCur, A, B)
    ensures Units(bCur.Remaining()) < old(Units(bCur.Remaining())) && aCur.Remaining() == old(aCur.Remaining())
  {
    hide ComposeOps, AddAll, AddOp, Advance, DstLen, Units, Positive, OpCursor.Valid, OpCursor.Remaining, Composing;
    ComposeStepB(result.ops, aCur.Remaining(), bCur.Remaining(), A, B);
    result.Add(Insert(s));
    bCur.Consume(|s|);
  }

  /** A deletes: nothing of B is consumed. */
  method TakeDelete(result: Builder, aCur: OpCursor, bCur: OpCursor, n: int, ghost A: seq<Op>, ghost B: seq<Op>)
    requires Underway(result, aCur, bCur, A, B) && !HeadInsert(bCur.Remaining())
    requires aCur.Remaining() != [] && aCur.Remaining()[0] == Delete(n)
    modifies result, aCur
    ensures Underway(result, aCur, bCur, A, B)
    ensures Units(aCur.Remaining()) < old(Units(aCur.Remaining())) && bCur.Remaining() == old(bCur.Remaining())
  {
    hide ComposeOps, AddAll, AddOp, Advance, DstLen, Units, Positive, OpCursor.Valid, OpCursor.Remaining, Composing;
    ComposeStepA(result.ops, aCur.Remaining(), bCur.Remaining(), A, B);
    result.Add(Delete(n));
    aCur.Consume(n);
  }

  /** Both stand on A's output: as much of it as both cover. */
  method TakeBoth(result: Builder, aCur: OpCursor, bCur: OpCursor, aOp: Op, bOp: Op, ghost A: seq<Op>, ghost B: seq<Op>)
    requires Underway(result, aCur, bCur, A, B) && aCur.Remaining() != [] && bCur.Remaining() != []
    requires !HeadInsert(bCur.Remaining()) && !HeadDelete(aCur.Remaining())
    requires aOp == aCur.Remaining()[0] && bOp == bCur.Remaining()[0]
    modifies result, aCur, bCur
    ensures Underway(result, aCur, bCur, A, B)
    ensures Units(aCur.Remaining()) + Units(bCur.Remaining()) < old(Units(aCur.Remaining()) + Units(bCur.Remaining()))
  {
    hide ComposeOps, AddAll, AddOp, Advance, DstLen, Units, Positive, OpCursor.Valid, OpCursor.Remaining, Composing;
    var n := if aOp.Insert? then |aOp.chars| else aOp.len;
    if bOp.len < n {
      n := bOp.len;
    }
    ComposeStepBoth(result.ops, aCur.Remaining(), bCur.Remaining(), n, A, B);
    if aOp.Retain? && bOp.Retain? {
      result.Add(Retain(n));
    } else if aOp.Retain? && bOp.Delete? {
      result.Add(Delete(n));
    } else if aOp.Insert? && bOp.Retain? {
      result.Add(Insert(aOp.chars[..n]));
    }
    aCur.Consume(n);
    bCur.Consume(n);
  }

  /** Compose: both cursors are consumed in part, whichever operation is shorter. */
  method ComputeCompose(A: Changeset, B: Changeset) returns (r: Changeset)
    requires Positive(A.ops) && Positive(B.ops)
    ensures r == Compose(A, B)
  {
    hide ComposeOps, AddAll, AddOp, Advance, DstLen, Units, Positive, OpCursor.Valid, OpCursor.Remaining, Abuts,
         Composing;
    var result := new Builder();
    var aCur := new OpCursor(A.ops);
    var bCur := new OpCursor(B.ops);
    EmptyLength();
    ComposeBegins(A.ops, B.ops);
    while true
      invariant Underway(result, aCur, bCur, A.ops, B.ops)
      decreases Units(aCur.Remaining()) + Units(bCur.Remaining())
    {
      var bOp := bCur.Peek();
      var aOp := aCur.Peek();
      if bOp.None? && aOp.None? {
        break;
      }
      if bOp.Some? && bOp.value.Insert? {
        TakeInsert(result, aCur, bCur, bOp.value.chars, A.ops, B.ops);
        continue;
      }
      if aOp.Some? && aOp.value.Delete? {
        TakeDelete(result, aCur, bCur, aOp.value.len, A.ops, B.ops);
        continue;
      }
      if aOp.None? || bOp.None? {
        break;
      }
      TakeBoth(result, aCur, bCur, aOp.value, bOp.value, A.ops, B.ops);
    }
    ComposeEnds(result.ops, aCur.Remaining(), bCur.Remaining(), A.ops, B.ops);
    assert Abuts(A.ops, B.ops) ==> aCur.Remaining() == [] && bCur.Remaining() == [];
    return Changeset(A.oldLen, B.newLen, result.ops);
  }

  // ------------------------------------------------------------ what the composition means

  ghost predicate Consecutive(t: string, a: seq<Op>, b: seq<Op>) {
    Positive(a) && Positive(b) && SrcLen(a) == |t| && DstLen(a) == SrcLen(b)
  }

  ghost function AfterBoth(t: string, a: seq<Op>, b: seq<Op>): (r: string)
    requires Consecutive(t, a, b)
  {
    RunLength(t, a);
    Run(Run(t, a), b)
  }

  lemma AfterInsertB(t: string, a: seq<Op>, b: seq<Op>)
    requires Consecutive(t, a, b) && HeadInsert(b)
    ensures Consecutive(t, a, b[1..])
    ensures AfterBoth(t, a, b) == b[0].chars + AfterBoth(t, a, b[1..])
  {
    RunLength(t, a);
    RunHead(Run(t, a), b);
    Whole(Run(t, a));
  }

  lemma AfterDeleteA(t: string, a: seq<Op>, b: seq<Op>)
    requires Consecutive(t, a, b) && HeadDelete(a)
    ensures 0 < a[0].len <= |t| && Consecutive(t[a[0].len..], a[1..], b)
    ensures AfterBoth(t, a, b) == AfterBoth(t[a[0].len..], a[1..], b)
  {
    RunHead(t, a);
    Whole(Run(t[a[0].len..], a[1..]));
  }

  /** B's treatment of one stretch of A's output. */
  lemma AfterStretch(t: string, a: seq<Op>, b: seq<Op>, n: nat)
    requires Consecutive(t, a, b) && a != [] && b != [] && !HeadDelete(a) && !HeadInsert(b)
    requires n == Min(Size(a[0]), Size(b[0]))
    ensures var k := Src(Chunk(a[0], n));
            && 0 <= k <= |t| && Consecutive(t[k..], Advance(a, n), Advance(b, n))
            && AfterBoth(t, a, b)
               == Piece(Piece(t[..k], Chunk(a[0], n)), Chunk(b[0], n)) + AfterBoth(t[k..], Advance(a, n), Advance(b, n))
  {
    var k := Src(Chunk(a[0], n));
    RunAdvance(t, a, n);
    var p, u := Piece(t[..k], Chunk(a[0], n)), Run(t[k..], Advance(a, n));
    assert |p| == n;
    RunLength(t, a);
    RunLength(t[k..], Advance(a, n));
    RunAdvance(Run(t, a), b, n);
    hide Run;
    SliceConcat(p, u, n);
    Whole(p);
    Whole(u);
  }

  lemma CombinedMeaning(t: string, u: string, aOp: Op, bOp: Op, n: nat, rest: seq<Op>)
    requires 0 < n <= Size(aOp) && n <= Size(bOp) && !aOp.Delete? && !bOp.Insert?
    requires Src(Chunk(aOp, n)) == |t| && Positive(rest) && SrcLen(rest) == |u|
    ensures var e := Combined(aOp, bOp, n);
            && NonNegative(e + rest) && SrcLen(e + rest) == |t + u|
            && Run(t + u, e + rest) == Piece(Piece(t, Chunk(aOp, n)), Chunk(bOp, n)) + Run(u, rest)
  {
    hide Run;
    var e := Combined(aOp, bOp, n);
    if e == [] {
      Whole(u);
      Whole(rest);
      Whole(Run(u, rest));
    } else {
      assert e == [e[0]];
      RunCons(t, u, e[0], rest);
    }
  }

  lemma OutputLeft(ops: seq<Op>)
    requires Positive(ops) && !HeadDelete(ops)
    ensures ops == [] <==> DstLen(ops) == 0
  {
    if ops != [] {
      LengthsNonNegative(ops[1..]);
    }
  }

  /** The composed list reads A's source and writes what A and then B would. */
  lemma {:induction false} ComposeOpsMeaning(t: string, a: seq<Op>, b: seq<Op>)
    requires Consecutive(t, a, b)
    ensures SrcLen(ComposeOps(a, b)) == |t|
    ensures Run(t, ComposeOps(a, b)) == AfterBoth(t, a, b)
    decreases Units(a) + Units(b)
  {
    hide Run, AfterBoth, Advance, SrcLen, DstLen, Piece;
    if HeadInsert(b) {
      AfterInsertB(t, a, b);
      ComposeOpsMeaning(t, a, b[1..]);
      InsertFront(t, b[0].chars, ComposeOps(a, b[1..]));
    } else if HeadDelete(a) {
      AfterDeleteA(t, a, b);
      ComposeOpsMeaning(t[a[0].len..], a[1..], b);
      DeleteFront(t, a[0].len, ComposeOps(a[1..], b));
    } else if a == [] || b == [] {
      OutputLeft(a);
      DocumentLeft(b);
      EmptyLength();
      AfterEmpty(t);
    } else {
      var n := Min(Size(a[0]), Size(b[0]));
      var k := Src(Chunk(a[0], n));
      UnitsHead(a);
      UnitsHead(b);
      AfterStretch(t, a, b, n);
      ComposeOpsMeaning(t[k..], Advance(a, n), Advance(b, n));
      CombinedMeaning(t[..k], t[k..], a[0], b[0], n, ComposeOps(Advance(a, n), Advance(b, n)));
      SplitAt(t, k);
    }
  }

  lemma InsertFront(t: string, s: string, ops: seq<Op>)
    requires Positive(ops) && SrcLen(ops) == |t|
    ensures NonNegative([Insert(s)] + ops) && SrcLen([Insert(s)] + ops) == |t|
    ensures Run(t, [Insert(s)] + ops) == s + Run(t, ops)
  {
    Whole(t);
    RunCons("", t, Insert(s), ops);
  }

  lemma DeleteFront(t: string, n: nat, ops: seq<Op>)
    requires Positive(ops) && n <= |t| && SrcLen(ops) == |t| - n
    ensures NonNegative([Delete(n)] + ops) && SrcLen([Delete(n)] + ops) == |t|
    ensures Run(t, [Delete(n)] + ops) == Run(t[n..], ops)
  {
    SplitAt(t, n);
    RunCons(t[..n], t[n..], Delete(n), ops);
    Whole(Run(t[n..], ops));
  }

  lemma AfterEmpty(t: string)
    ensures t == "" ==> Consecutive(t, [], []) && AfterBoth(t, [], []) == "" && Run(t, []) == ""
  {
  }

  /** Compose preserves meaning, and its result is valid and fully merged. */
  lemma ComposeMeaning(t: string, A: Changeset, B: Changeset)
    requires Valid(A) && Valid(B) && A.oldLen == |t| && A.newLen == B.oldLen
    ensures Canonical(Compose(A, B)) && Compose(A, B).oldLen == |t| && Compose(A, B).newLen == B.newLen
    ensures |Run(t, A.ops)| == B.oldLen
    ensures Run(t, Compose(A, B).ops) == Run(Run(t, A.ops), B.ops)
  {
    hide Run, ComposeOps, AddAll;
    RunLength(t, A.ops);
    RunLength(Run(t, A.ops), B.ops);
    ComposeOpsMeaning(t, A.ops, B.ops);
    var raw := ComposeOps(A.ops, B.ops);
    EmptyLength();
    AddAllMeaning(t, [], raw);
    Whole(raw);
    RunLength(t, AddAll([], raw));
  }
}
