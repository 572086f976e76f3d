/**
 * Where two texts may differ without a rebased changeset noticing: nowhere, when the two are what
 * the two orders of a pair of changesets produce.
 */
module KeptUnits {
  import opened Numbers
  import opened Sequences
  import opened Changesets
  import opened OpLists
  import opened Follows
  import opened Convergence

  /** Two results of `ops` that agree wherever `ops` retains. */
  ghost predicate SameKept(u: string, v: string, ops: seq<Op>)
    decreases ops
  {
    && |u| == |v|
    && if ops == [] then u == ""
       else
         var n := Dst(ops[0]);
         && 0 <= n <= |u| && (ops[0].Retain? ==> u[..n] == v[..n])
         && SameKept(u[n..], v[n..], ops[1..])
  }

  /** Two texts `ops` can be applied to that agree wherever `ops` deletes. */
  ghost predicate SameDeleted(u: string, v: string, ops: seq<Op>)
    decreases ops
  {
    && |u| == |v|
    && if ops == [] then u == ""
       else
         var n := Src(ops[0]);
         && 0 <= n <= |u| && (ops[0].Delete? ==> u[..n] == v[..n])
         && SameDeleted(u[n..], v[n..], ops[1..])
  }

  // ------------------------------------------------------------ telling texts apart

  /** Texts that agree on what is deleted, and on the result, are equal. */
  lemma {:induction false} DeletedAndResult(u: string, v: string, ops: seq<Op>)
    requires NonNegative(ops) && SrcLen(ops) == |u| == |v| && SameDeleted(u, v, ops)
    requires Run(u, ops) == Run(v, ops)
    ensures u == v
    decreases ops
  {
    if ops != [] {
      var n := Src(ops[0]);
      RunHead(u, ops);
      RunHead(v, ops);
      SplitAt(u, n);
      SplitAt(v, n);
      SamePieces(u[..n], v[..n], ops[0]);
      SplitEquality(Piece(u[..n], ops[0]), Run(u[n..], ops[1..]), Piece(v[..n], ops[0]), Run(v[n..], ops[1..]));
      DeletedAndResult(u[n..], v[n..], ops[1..]);
    }
  }

  lemma SamePieces(t: string, t': string, op: Op)
    requires |t| == |t'| == Src(op)
    ensures |Piece(t, op)| == |Piece(t', op)|
    ensures !op.Delete? && Piece(t, op) == Piece(t', op) ==> t == t'
  {
  }

  // ------------------------------------------------------------ rebasing never deletes an insertion

  lemma SameKeptAdvance(u: string, v: string, ops: seq<Op>, n: nat)
    requires Positive(ops) && ops != [] && 0 < n <= Size(ops[0]) && SameKept(u, v, ops)
    ensures var k := Dst(Chunk(ops[0], n));
            && 0 <= k <= |u| && (ops[0].Retain? ==> u[..k] == v[..k])
            && SameKept(u[k..], v[k..], Advance(ops, n))
  {
    AdvanceHead(ops, n);
    hide Advance;
    if n == Size(ops[0]) {
      ChunkWhole(ops[0]);
    } else {
      SameKeptShrink(u, v, ops, n);
    }
  }

  lemma SameKeptShrink(u: string, v: string, ops: seq<Op>, n: nat)
    requires ops != [] && 0 < n < Size(ops[0]) && SameKept(u, v, ops)
    ensures var k := Dst(Chunk(ops[0], n));
            && 0 <= k <= |u| && (ops[0].Retain? ==> u[..k] == v[..k])
            && SameKept(u[k..], v[k..], [Shrink(ops[0], n)] + ops[1..])
  {
    var op, rest, m := ops[0], ops[1..], Dst(ops[0]);
    var k := Dst(Chunk(op, n));
    assert SameKept(u[m..], v[m..], rest);
    SlicesOfSlices(u, k, m);
    SlicesOfSlices(v, k, m);
    ConsKept(u[k..], v[k..], Shrink(op, n), rest);
  }

  lemma ConsKept(u: string, v: string, op: Op, rest: seq<Op>)
    requires |u| == |v| && 0 <= Dst(op) <= |u| && (op.Retain? ==> u[..Dst(op)] == v[..Dst(op)])
    requires SameKept(u[Dst(op)..], v[Dst(op)..], rest)
    ensures SameKept(u, v, [op] + rest)
  {
    TailOfCons(op, rest);
  }

  /** What B rebased past A deletes, A retained: agreement there is enough. */
  lemma {:induction false} FollowDeletesKept(u: string, v: string, a: seq<Op>, b: seq<Op>)
    requires Positive(a) && Positive(b) && SrcLen(a) == SrcLen(b) && SameKept(u, v, a)
    ensures SameDeleted(u, v, FollowOps(a, b))
    decreases Units(a) + Units(b)
  {
    hide SameDeleted, LexLeq;
    if TakesA(a, b) {
      var n := |a[0].chars|;
      FollowDeletesKept(u[n..], v[n..], a[1..], b);
      EmitDeleted(u, v, [Retain(n)], FollowOps(a[1..], b), n);
    } else if HeadInsert(b) {
      Whole(u);
      Whole(v);
      FollowDeletesKept(u, v, a, b[1..]);
      EmitDeleted(u, v, [b[0]], FollowOps(a, b[1..]), 0);
    } else if OnDocument(a, b) {
      hide SameKept, FollowOps, Advance;
      var n := Min(a[0].len, b[0].len);
      UnitsHead(a);
      UnitsHead(b);
      AdvanceLengths(a, n);
      AdvanceLengths(b, n);
      SameKeptAdvance(u, v, a, n);
      var k := Dst(Chunk(a[0], n));
      FollowDeletesKept(u[k..], v[k..], Advance(a, n), Advance(b, n));
      FollowStretch(a, b, n);
      EmitDeleted(u, v, Rebased(a[0], b[0], n), FollowOps(Advance(a, n), Advance(b, n)), k);
    } else {
      DocumentLeft(a);
      DocumentLeft(b);
      NothingDeleted();
    }
  }

  lemma NothingDeleted()
    ensures SameDeleted("", "", [])
  {
  }

  lemma EmitDeleted(u: string, v: string, e: seq<Op>, rest: seq<Op>, k: nat)
    requires |e| <= 1 && |u| == |v| && k <= |u| && SameDeleted(u[k..], v[k..], rest)
    requires if e == [] then k == 0 else k == Src(e[0]) && (e[0].Delete? ==> u[..k] == v[..k])
    ensures SameDeleted(u, v, e + rest)
  {
    if e == [] {
      Whole(u);
      Whole(v);
      Whole(rest);
    } else {
      assert e == [e[0]];
      TailOfCons(e[0], rest);
    }
  }

  // ------------------------------------------------------------ the two orders keep the same

  /** Leading insertions of the rebased list write what may differ. */
  lemma {:induction false} InsertsMayDiffer(g: string, g': string, u: string, v: string, a: seq<Op>, b: seq<Op>)
    requires Positive(a) && Positive(b) && !HeadInsert(a) && |g| == |g'| == RunChars(b)
    requires SameKept(u, v, FollowOps(a, Strip(b)))
    ensures SameKept(g + u, g' + v, FollowOps(a, b))
    decreases b
  {
    if HeadInsert(b) {
      var n := |b[0].chars|;
      InsertsMayDiffer(g[n..], g'[n..], u, v, a, b[1..]);
      SliceConcat(g, u, n);
      SliceConcat(g', v, n);
      TailOfCons(b[0], FollowOps(a, b[1..]));
    } else {
      Whole(u);
      Whole(v);
    }
  }

  /** The equal-text tie: both orders write the text here, each its own copy of it. */
  lemma TieKept(t: string, x: seq<Op>, b: seq<Op>)
    requires Concurrent(t, x, b) && HeadInsert(x) && HeadInsert(b) && x[0] == b[0] && !HeadInsert(x[1..])
    requires Concurrent(t, Strip(x), Strip(b))
    requires SameKept(Final(t, Strip(x), Strip(b)), Final(t, Strip(b), Strip(x)), FollowOps(Strip(x), Strip(b)))
    ensures SameKept(Final(t, x, b), Final(t, b, x), FollowOps(x, b))
  {
    hide Final, SameKept, GapText;
    var s := x[0].chars;
    LexTotal(s, s);
    FinalTakeA(t, x, b);
    FinalTakeA(t, b, x);
    FinalGap(t, x[1..], b);
    FinalGap(t, b[1..], x);
    GapLength(x[1..], b);
    GapLength(b[1..], x);
    var u, v := Final(t, Strip(x), Strip(b)), Final(t, Strip(b), Strip(x));
    InsertsMayDiffer(GapText(x[1..], b), GapText(b[1..], x), u, v, x[1..], b);
    RetainKept(s, Final(t, x[1..], b), Final(t, b[1..], x), FollowOps(x[1..], b));
  }

  lemma RetainKept(s: string, u: string, v: string, rest: seq<Op>)
    requires SameKept(u, v, rest)
    ensures SameKept(s + u, s + v, [Retain(|s|)] + rest)
  {
    SliceConcat(s, u, |s|);
    SliceConcat(s, v, |s|);
    Whole(s);
    TailOfCons(Retain(|s|), rest);
  }

  lemma InsertKept(s: string, u: string, v: string, rest: seq<Op>)
    requires SameKept(u, v, rest)
    ensures SameKept(s + u, s + v, [Insert(s)] + rest)
  {
    SliceConcat(s, u, |s|);
    SliceConcat(s, v, |s|);
    TailOfCons(Insert(s), rest);
  }

  lemma StretchKept(s: string, u: string, v: string, e: seq<Op>, rest: seq<Op>)
    requires SameKept(u, v, rest) && |e| <= 1
    requires if e != [] && e[0].Retain? then e[0].len == |s| else s == "" && (e != [] ==> e[0].Delete?)
    ensures SameKept(s + u, s + v, e + rest)
  {
    if e == [] {
      Whole(u);
      Whole(v);
      Whole(rest);
    } else {
      assert e == [e[0]];
      SliceConcat(s, u, |s|);
      SliceConcat(s, v, |s|);
      Whole(s);
      TailOfCons(e[0], rest);
    }
  }

  /**
   * Wherever B rebased past X retains, the two orders of X and B hold the same text, even where
   * tied insertions make them differ elsewhere.
   */
  lemma {:induction false} OrdersKeepTheSame(t: string, x: seq<Op>, b: seq<Op>)
    requires Concurrent(t, x, b) && NoAdjacentInserts(x)
    ensures SameKept(Final(t, x, b), Final(t, b, x), FollowOps(x, b))
    decreases Units(x) + Units(b)
  {
    hide Final, SameKept, LexLeq;
    if HeadInsert(x) && HeadInsert(b) && x[0] == b[0] {
      FinalGap(t, x, b);
      StripKeepsForm(x);
      StripShrinks(x);
      OrdersKeepTheSame(t, Strip(x), Strip(b));
      TieKept(t, x, b);
    } else if TakesA(x, b) {
      NotBoth(x, b);
      FinalTakeA(t, x, b);
      FinalTakeB(t, b, x);
      OrdersKeepTheSame(t, x[1..], b);
      RetainKept(x[0].chars, Final(t, x[1..], b), Final(t, b, x[1..]), FollowOps(x[1..], b));
    } else if HeadInsert(b) {
      NotBoth(x, b);
      FinalTakeB(t, x, b);
      FinalTakeA(t, b, x);
      OrdersKeepTheSame(t, x, b[1..]);
      InsertKept(b[0].chars, Final(t, x, b[1..]), Final(t, b[1..], x), FollowOps(x, b[1..]));
    } else if OnDocument(x, b) {
      var n := Min(x[0].len, b[0].len);
      UnitsHead(x);
      UnitsHead(b);
      AdvanceKeepsForm(x, n);
      FinalBoth(t, x, b, n);
      FinalBoth(t, b, x, n);
      FollowStretch(x, b, n);
      var x', b' := Advance(x, n), Advance(b, n);
      OrdersKeepTheSame(t[n..], x', b');
      StretchKept(if x[0].Retain? && b[0].Retain? then t[..n] else "", Final(t[n..], x', b'), Final(t[n..], b', x'),
                  Rebased(x[0], b[0], n), FollowOps(x', b'));
    } else {
      DocumentLeft(x);
      DocumentLeft(b);
      FinalEmpty(t);
      NothingKept();
    }
  }

  lemma NothingKept()
    ensures SameKept("", "", [])
  {
  }

  /** Away from equal texts the tie-break favours the same insertion in both orders. */
  lemma NotBoth(x: seq<Op>, b: seq<Op>)
    requires !(HeadInsert(x) && HeadInsert(b) && x[0] == b[0])
    ensures HeadInsert(b) ==> (TakesA(b, x) <==> !TakesA(x, b))
    ensures HeadInsert(x) && TakesA(x, b) ==> !TakesA(b, x)
  {
    if HeadInsert(x) && HeadInsert(b) {
      LexTotal(x[0].chars, b[0].chars);
    }
  }

  lemma {:induction false} StripShrinks(ops: seq<Op>)
    requires Positive(ops) && HeadInsert(ops)
    ensures Units(Strip(ops)) < Units(ops)
  {
    UnitsHead(ops);
  }

  // ------------------------------------------------------------ merging

  lemma {:induction false} SameKeptConcat(u: string, v: string, x: seq<Op>, y: seq<Op>)
    requires NonNegative(x)
    ensures DstLen(x) >= 0
    ensures SameKept(u, v, x + y) <==>
              && |u| == |v| && DstLen(x) <= |u|
              && SameKept(u[..DstLen(x)], v[..DstLen(x)], x) && SameKept(u[DstLen(x)..], v[DstLen(x)..], y)
    decreases x
  {
    LengthsNonNegative(x);
    if x == [] {
      Whole(u);
      Whole(v);
      Whole(y);
    } else {
      var n, k := Dst(x[0]), DstLen(x);
      SliceConcat(x, y, 1);
      LengthsNonNegative(x[1..]);
      if |u| == |v| && n <= |u| {
        SameKeptConcat(u[n..], v[n..], x[1..], y);
        hide DstLen;
        if k <= |u| {
          SlicesOfSlices(u, n, k);
          SlicesOfSlices(v, n, k);
        }
      }
    }
  }

  lemma SlicesOfSlices(u: string, n: nat, k: nat)
    requires n <= k <= |u|
    ensures u[n..][..k - n] == u[..k][n..] && u[n..][k - n..] == u[k..] && u[..k][..n] == u[..n]
  {
  }

  lemma MergedPair(u: string, v: string, x: Op, y: Op)
    requires SameType(x, y) && Size(x) >= 0 && Size(y) >= 0 && SameKept(u, v, [x, y])
    ensures SameKept(u, v, [Joined(x, y)])
  {
    var n, m := Dst(x), Dst(y);
    assert [x, y][1..] == [y] && [y][1..] == [] && [Joined(x, y)][1..] == [];
    assert SameKept(u[n..], v[n..], [y]);
    DropDrop(u, n, m);
    DropDrop(v, n, m);
    if x.Retain? {
      MiddleSplit(u, n, n + m);
      MiddleSplit(v, n, n + m);
    }
  }

  lemma AddOpKept(u: string, v: string, acc: seq<Op>, op: Op)
    requires NonNegative(acc) && Size(op) >= 0 && SameKept(u, v, acc + [op])
    ensures SameKept(u, v, AddOp(acc, op)) && NonNegative(AddOp(acc, op))
  {
    hide SameKept;
    var k := |acc| - 1;
    if k >= 0 && SameType(acc[k], op) {
      var n := DstLen(acc[..k]);
      SnocSnoc(acc, op);
      SameKeptConcat(u, v, acc[..k], [acc[k], op]);
      MergedPair(u[n..], v[n..], acc[k], op);
      SameKeptConcat(u, v, acc[..k], [Joined(acc[k], op)]);
    }
  }

  /** Merging neighbours does not change where a list retains. */
  lemma {:induction false} AddAllKept(u: string, v: string, acc: seq<Op>, ops: seq<Op>)
    requires NonNegative(acc) && NonNegative(ops) && SameKept(u, v, acc + ops)
    ensures SameKept(u, v, AddAll(acc, ops))
    decreases ops
  {
    hide SameKept, AddOp;
    if ops == [] {
      Whole(acc);
    } else {
      var op, rest := ops[0], ops[1..];
      Cons(ops);
      Assoc(acc, [op], rest);
      LengthsConcat(acc, [op]);
      var k := DstLen(acc + [op]);
      SameKeptConcat(u, v, acc + [op], rest);
      AddOpKept(u[..k], v[..k], acc, op);
      AddOpDst(acc, op);
      SameKeptConcat(u, v, AddOp(acc, op), rest);
      AddAllKept(u, v, AddOp(acc, op), rest);
    }
  }

  // ------------------------------------------------------------ changesets

  /** What a further changeset, rebased past f(X, B), shows of the two orders tells them apart. */
  lemma RebasedTellsApart(t: string, X: Changeset, B: Changeset, Y: Changeset)
    requires Valid(X) && Valid(B) && X.oldLen == B.oldLen == |t| && NoAdjacentInserts(X.ops)
    requires Valid(Y) && Y.oldLen == X.newLen
    ensures var B', X' := Follow(X, B), Follow(B, X);
            && Valid(B') && B'.oldLen == |Run(t, X.ops)| == Y.oldLen
            && Valid(X') && X'.oldLen == |Run(t, B.ops)| && Valid(Follow(B', Y))
            && var p, q := Run(Run(t, B.ops), X'.ops), Run(Run(t, X.ops), B'.ops);
               && |p| == |q| == Follow(B', Y).oldLen
               && (Run(p, Follow(B', Y).ops) == Run(q, Follow(B', Y).ops) ==> p == q)
  {
    hide Run, FollowOps, AddAll, SameKept, SameDeleted, SrcLen, DstLen;
    var B', X' := Follow(X, B), Follow(B, X);
    FollowConvergesExactlyWhenTiesAgree(t, X, B);
    FollowMeaning(t, X, B);
    FollowMeaning(t, B, X);
    RunLength(Run(t, X.ops), B'.ops);
    RunLength(Run(t, B.ops), X'.ops);
    FollowIsCanonical(B', Y);
    var p, q := Run(Run(t, B.ops), X'.ops), Run(Run(t, X.ops), B'.ops);
    OrdersKeepTheSame(t, X.ops, B.ops);
    var raw := FollowOps(X.ops, B.ops);
    Whole(raw);
    AddAllKept(q, p, [], raw);
    FollowDeletesKept(q, p, B'.ops, Y.ops);
    var raw' := FollowOps(B'.ops, Y.ops);
    FollowLengths(B'.ops, Y.ops);
    EmptyLength();
    Whole(raw');
    AddAllMeaning(p, [], raw');
    AddAllMeaning(q, [], raw');
    if Run(p, Follow(B', Y).ops) == Run(q, Follow(B', Y).ops) {
      DeletedAndResult(q, p, raw');
    }
  }
}
