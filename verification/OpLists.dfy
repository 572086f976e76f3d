/**
 * The machinery shared by Follow, Compose and the diff: partial consumption of an
 * operation list through a cursor, and appending with merging of like neighbours.
 */
module OpLists {
  import opened Options
  import opened Sequences
  import opened Changesets

  /** All units covered; the measure of every two-cursor walk. */
  function Units(ops: seq<Op>): (u: nat)
    requires Positive(ops)
    ensures u >= |ops|
  {
    if ops == [] then 0 else Size(ops[0]) + Units(ops[1..])
  }

  predicate HeadInsert(ops: seq<Op>) {
    ops != [] && ops[0].Insert?
  }

  /** The operation without its first `n` units, and its first `n` units alone. */
  function Shrink(op: Op, n: nat): (r: Op)
    requires n <= Size(op)
    ensures SameType(r, op) && Size(r) == Size(op) - n
  {
    match op
    case Retain(k) => Retain(k - n)
    case Insert(s) => Insert(s[n..])
    case Delete(k) => Delete(k - n)
  }

  function Chunk(op: Op, n: nat): (r: Op)
    requires n <= Size(op)
    ensures SameType(r, op) && Size(r) == n
  {
    match op
    case Retain(_) => Retain(n)
    case Insert(s) => Insert(s[..n])
    case Delete(_) => Delete(n)
  }

  /** What is left of an operation list once `n` units have been consumed. */
  function Advance(ops: seq<Op>, n: nat): (r: seq<Op>)
    requires Positive(ops)
    ensures Positive(r)
    ensures n <= Units(ops) ==> Units(r) == Units(ops) - n
    decreases ops
  {
    if n == 0 || ops == [] then ops
    else if n >= Size(ops[0]) then Advance(ops[1..], n - Size(ops[0]))
    else
      assert ([Shrink(ops[0], n)] + ops[1..])[1..] == ops[1..];
      [Shrink(ops[0], n)] + ops[1..]
  }

  /** The case the walks use: consuming at most the head. */
  lemma AdvanceHead(ops: seq<Op>, n: nat)
    requires Positive(ops) && ops != [] && 0 < n <= Size(ops[0])
    ensures Advance(ops, n) == if n == Size(ops[0]) then ops[1..] else [Shrink(ops[0], n)] + ops[1..]
  {
    if n == Size(ops[0]) {
      assert Advance(ops[1..], 0) == ops[1..];
    }
  }

  lemma ShrinkChunkPiece(t: string, op: Op, n: nat)
    requires 0 < n <= Size(op) && Src(op) == |t|
    ensures 0 <= Src(Chunk(op, n)) <= |t|
    ensures Piece(t, op) == Piece(t[..Src(Chunk(op, n))], Chunk(op, n)) + Piece(t[Src(Chunk(op, n))..], Shrink(op, n))
  {
  }

  /** Consuming part of the head splits the run at the corresponding place in the source. */
  lemma RunAdvance(t: string, ops: seq<Op>, n: nat)
    requires Positive(ops) && ops != [] && 0 < n <= Size(ops[0]) && SrcLen(ops) == |t|
    ensures var k := Src(Chunk(ops[0], n));
            && 0 <= k <= |t| && SrcLen(Advance(ops, n)) == |t| - k
            && DstLen(Advance(ops, n)) == DstLen(ops) - Dst(Chunk(ops[0], n))
            && Run(t, ops) == Piece(t[..k], Chunk(ops[0], n)) + Run(t[k..], Advance(ops, n))
  {
    var k, m := Src(Chunk(ops[0], n)), Src(ops[0]);
    AdvanceHead(ops, n);
    LengthsNonNegative(ops[1..]);
    if n == Size(ops[0]) {
      ChunkWhole(ops[0]);
    } else {
      RunAdvancePart(t, ops, n);
    }
  }

  lemma ChunkWhole(op: Op)
    requires Size(op) >= 0
    ensures Chunk(op, Size(op)) == op
  {
  }

  lemma RunAdvancePart(t: string, ops: seq<Op>, n: nat)
    requires Positive(ops) && ops != [] && 0 < n < Size(ops[0]) && SrcLen(ops) == |t|
    ensures var k := Src(Chunk(ops[0], n));
            var rest := [Shrink(ops[0], n)] + ops[1..];
            && 0 <= k <= |t| && NonNegative(rest) && SrcLen(rest) == |t| - k
            && DstLen(rest) == DstLen(ops) - Dst(Chunk(ops[0], n))
            && Run(t, ops) == Piece(t[..k], Chunk(ops[0], n)) + Run(t[k..], rest)
  {
    var k, m := Src(Chunk(ops[0], n)), Src(ops[0]);
    var op, tail := Shrink(ops[0], n), ops[1..];
    LengthsNonNegative(tail);
    RunHead(t, ops);
    hide Run;
    RunConsShrunk(t, ops, k, m, op);
    LengthsConcat([op], tail);
    ShrinkChunkPiece(t[..m], ops[0], n);
    TakeTake(t, k, m);
    Assoc(Piece(t[..k], Chunk(ops[0], n)), Piece(t[k..m], op), Run(t[m..], tail));
  }

  lemma RunConsShrunk(t: string, ops: seq<Op>, k: nat, m: nat, op: Op)
    requires Positive(ops) && ops != [] && SrcLen(ops) == |t| && m == Src(ops[0])
    requires Size(op) > 0 && k <= m <= |t| && Src(op) == m - k
    ensures NonNegative([op] + ops[1..]) && SrcLen([op] + ops[1..]) == |t| - k
    ensures Run(t[k..], [op] + ops[1..]) == Piece(t[k..m], op) + Run(t[m..], ops[1..])
  {
    MiddleSplit(t, k, m);
    RunCons(t[k..m], t[m..], op, ops[1..]);
  }

  /** The operations from position `pos` on, the first without its first `off` units. */
  function Rest(ops: seq<Op>, pos: nat, off: nat): (r: seq<Op>)
    requires Positive(ops) && pos <= |ops| && (pos < |ops| ==> off < Size(ops[pos]))
    ensures Positive(r) && (r == [] <==> pos == |ops|)
  {
    if pos == |ops| then [] else [Shrink(ops[pos], off)] + ops[pos + 1..]
  }

  /** A cursor over an operation list: current operation and units already used of it. */
  class OpCursor {
    const ops: seq<Op>
    var pos: nat
    var off: nat

    ghost predicate Valid()
      reads this
    {
      && Positive(ops)
      && pos <= |ops|
      && (if pos == |ops| then off == 0 else off < Size(ops[pos]))
    }

    /** The operations the cursor still has to deliver. */
    ghost function Remaining(): (r: seq<Op>)
      requires Valid()
      reads this
      ensures Positive(r)
    {
      Rest(ops, pos, off)
    }

    constructor (ops: seq<Op>)
      requires Positive(ops)
      ensures Valid() && Remaining() == ops
    {
      this.ops := ops;
      pos, off := 0, 0;
      new;
      if ops != [] {
        ShrinkNone(ops[0]);
        Cons(ops);
      }
    }

    method Peek() returns (op: Option<Op>)
      requires Valid()
      ensures op == if Remaining() == [] then None else Some(Remaining()[0])
    {
      if pos >= |ops| {
        return None;
      }
      match ops[pos] {
        case Insert(s) => return Some(Insert(s[off..]));
        case Retain(k) => return Some(Retain(k - off));
        case Delete(k) => return Some(Delete(k - off));
      }
    }

    method Consume(count: nat)
      requires Valid()
      modifies this
      ensures Valid() && Remaining() == Advance(old(Remaining()), count)
    {
      hide Advance, Rest, Units;
      var n: nat := count;
      while n > 0 && pos < |ops|
        invariant Valid()
        invariant Advance(Remaining(), n) == Advance(old(Remaining()), count)
      {
        var rem := Size(ops[pos]) - off;
        if n >= rem {
          NextRemaining(ops, pos, off);
          AdvanceWhole(Remaining(), n);
          n := n - rem;
          pos := pos + 1;
          off := 0;
        } else {
          AdvancePart(ops, pos, off, n);
          AdvanceNone(Rest(ops, pos, off + n), 0);
          off := off + n;
          n := 0;
        }
      }
      AdvanceNone(Remaining(), n);
    }
  }

  lemma AdvanceNone(ops: seq<Op>, n: nat)
    requires Positive(ops) && (n == 0 || ops == [])
    ensures Advance(ops, n) == ops
  {
  }

  lemma AdvanceWhole(ops: seq<Op>, n: nat)
    requires Positive(ops) && ops != [] && n >= Size(ops[0])
    ensures Advance(ops, n) == Advance(ops[1..], n - Size(ops[0]))
  {
  }

  lemma AdvancePart(ops: seq<Op>, pos: nat, off: nat, n: nat)
    requires Positive(ops) && pos < |ops| && 0 < n < Size(ops[pos]) - off
    ensures Advance(Rest(ops, pos, off), n) == Rest(ops, pos, off + n)
  {
    ShrinkShrink(ops[pos], off, n);
    TailOfCons(Shrink(ops[pos], off), ops[pos + 1..]);
  }

  lemma ShrinkNone(op: Op)
    requires Size(op) >= 0
    ensures Shrink(op, 0) == op
  {
  }

  lemma ShrinkShrink(op: Op, m: nat, n: nat)
    requires m + n <= Size(op)
    ensures Shrink(Shrink(op, m), n) == Shrink(op, m + n)
  {
    if op.Insert? {
      DropDrop(op.chars, m, n);
    }
  }

  lemma TailOfCons<T>(x: T, y: seq<T>)
    ensures ([x] + y)[1..] == y
  {
  }

  /** Moving on to the next operation drops the head of what remains. */
  lemma NextRemaining(ops: seq<Op>, pos: nat, off: nat)
    requires Positive(ops) && pos < |ops| && off < Size(ops[pos])
    ensures var r := Rest(ops, pos, off);
            Size(r[0]) == Size(ops[pos]) - off && r[1..] == Rest(ops, pos + 1, 0)
  {
    TailOfCons(Shrink(ops[pos], off), ops[pos + 1..]);
    if pos + 1 < |ops| {
      ShrinkNone(ops[pos + 1]);
      Cons(ops[pos + 1..]);
      DropDrop(ops, pos + 1, 1);
    }
  }

  /** Two operations of one type as one. */
  function Joined(x: Op, y: Op): (z: Op)
    requires SameType(x, y)
    ensures SameType(z, x) && Size(z) == Size(x) + Size(y)
  {
    match x
    case Retain(n) => Retain(n + y.len)
    case Insert(s) => Insert(s + y.chars)
    case Delete(n) => Delete(n + y.len)
  }

  /** Append one operation, merging it into the last one when the types agree. */
  function AddOp(acc: seq<Op>, op: Op): (r: seq<Op>)
    ensures Merged(acc) ==> Merged(r)
    ensures Positive(acc) && Size(op) > 0 ==> Positive(r)
  {
    var k := |acc| - 1;
    if k >= 0 && SameType(acc[k], op) then acc[..k] + [Joined(acc[k], op)] else acc + [op]
  }

  /** Append a whole list that way. */
  function AddAll(acc: seq<Op>, ops: seq<Op>): (r: seq<Op>)
    ensures Merged(acc) ==> Merged(r)
    ensures Positive(acc) && Positive(ops) ==> Positive(r)
    decreases ops
  {
    if ops == [] then acc else AddAll(AddOp(acc, ops[0]), ops[1..])
  }

  lemma AddAllCons(acc: seq<Op>, op: Op, ops: seq<Op>)
    ensures AddAll(acc, [op] + ops) == AddAll(AddOp(acc, op), ops)
  {
    TailOfCons(op, ops);
  }

  lemma {:induction false} AddAllConcat(acc: seq<Op>, x: seq<Op>, y: seq<Op>)
    ensures AddAll(acc, x + y) == AddAll(AddAll(acc, x), y)
    decreases x
  {
    hide AddOp;
    if x == [] {
      Whole(y);
    } else {
      Cons(x);
      Assoc([x[0]], x[1..], y);
      AddAllCons(acc, x[0], x[1..] + y);
      AddAllConcat(AddOp(acc, x[0]), x[1..], y);
    }
  }

  lemma PieceMerge(t: string, u: string, x: Op, y: Op)
    requires SameType(x, y) && Size(x) >= 0 && Size(y) >= 0 && Src(x) == |t| && Src(y) == |u|
    ensures var z := Joined(x, y);
            Size(z) >= 0 && Src(z) == |t + u| && Dst(z) == Dst(x) + Dst(y)
              && Piece(t + u, z) == Piece(t, x) + Piece(u, y)
  {
  }

  /** Merging changes neither the lengths nor the meaning. */
  lemma AddOpMeaning(t: string, acc: seq<Op>, op: Op)
    requires NonNegative(acc) && Size(op) >= 0 && SrcLen(acc) + Src(op) == |t|
    ensures NonNegative(acc + [op]) && NonNegative(AddOp(acc, op))
    ensures SrcLen(AddOp(acc, op)) == SrcLen(acc + [op]) == |t|
    ensures DstLen(AddOp(acc, op)) == DstLen(acc + [op]) == DstLen(acc) + Dst(op)
    ensures Run(t, AddOp(acc, op)) == Run(t, acc + [op])
  {
    hide Run, SrcLen, DstLen, Joined;
    LengthsConcat(acc, [op]);
    OneLength(op);
    var k := |acc| - 1;
    if k >= 0 && SameType(acc[k], op) {
      SnocSnoc(acc, op);
      LengthsConcat(acc[..k], [acc[k]]);
      OneLength(acc[k]);
      MergeTwo(t, acc[..k], acc[k], op);
    }
  }

  lemma SnocSnoc(acc: seq<Op>, op: Op)
    requires acc != []
    ensures var k := |acc| - 1; acc == acc[..k] + [acc[k]] && acc + [op] == acc[..k] + [acc[k], op]
  {
  }

  lemma OneLength(op: Op)
    ensures SrcLen([op]) == Src(op) && DstLen([op]) == Dst(op)
  {
  }

  lemma AdvanceLengths(ops: seq<Op>, n: nat)
    requires Positive(ops) && ops != [] && 0 < n <= Size(ops[0])
    ensures SrcLen(Advance(ops, n)) == SrcLen(ops) - Src(Chunk(ops[0], n))
    ensures DstLen(Advance(ops, n)) == DstLen(ops) - Dst(Chunk(ops[0], n))
  {
    AdvanceHead(ops, n);
    ChunkWhole(ops[0]);
    TailOfCons(Shrink(ops[0], n), ops[1..]);
  }

  /** A list that starts on the document has document left to read. */
  lemma DocumentLeft(ops: seq<Op>)
    requires Positive(ops) && !HeadInsert(ops)
    ensures ops == [] <==> SrcLen(ops) == 0
  {
    if ops != [] {
      LengthsNonNegative(ops[1..]);
    }
  }

  lemma RunOne(t: string, op: Op)
    requires Size(op) >= 0 && Src(op) == |t|
    ensures SrcLen([op]) == Src(op) && DstLen([op]) == Dst(op)
    ensures Run(t, [op]) == Piece(t, op)
  {
    Whole(t);
    Whole(Piece(t, op));
  }

  lemma RunTwo(t: string, u: string, x: Op, y: Op)
    requires Size(x) >= 0 && Size(y) >= 0 && Src(x) == |t| && Src(y) == |u|
    ensures SrcLen([x, y]) == |t + u| && DstLen([x, y]) == Dst(x) + Dst(y)
    ensures Run(t + u, [x, y]) == Piece(t, x) + Piece(u, y)
  {
    LengthsConcat([x], [y]);
    RunOne(u, y);
    RunCons(t, u, x, [y]);
    assert [x] + [y] == [x, y];
  }

  lemma MergeTwo(t: string, init: seq<Op>, x: Op, y: Op)
    requires NonNegative(init) && Size(x) >= 0 && Size(y) >= 0 && SameType(x, y)
    requires SrcLen(init) + Src(x) + Src(y) == |t|
    ensures Size(Joined(x, y)) >= 0 && NonNegative(init + [Joined(x, y)]) && NonNegative(init + [x, y])
    ensures SrcLen(init + [Joined(x, y)]) == SrcLen(init + [x, y]) == |t|
    ensures DstLen(init + [Joined(x, y)]) == DstLen(init + [x, y])
    ensures Run(t, init + [Joined(x, y)]) == Run(t, init + [x, y])
  {
    hide Run, SrcLen, DstLen, Joined, Piece;
    LengthsNonNegative(init);
    var z, a, b := Joined(x, y), SrcLen(init), SrcLen(init) + Src(x);
    var u, v, w := t[..a], t[a..b], t[b..];
    Split3(t, a, b);
    PieceMerge(v, w, x, y);
    RunTwo(v, w, x, y);
    RunOne(v + w, z);
    LengthsConcat(init, [z]);
    LengthsConcat(init, [x, y]);
    RunConcat(u, v + w, init, [z]);
    RunConcat(u, v + w, init, [x, y]);
  }

  lemma {:induction false} AddAllMeaning(t: string, acc: seq<Op>, ops: seq<Op>)
    requires NonNegative(acc) && NonNegative(ops) && SrcLen(acc) + SrcLen(ops) == |t|
    ensures NonNegative(AddAll(acc, ops)) && NonNegative(acc + ops)
    ensures SrcLen(AddAll(acc, ops)) == SrcLen(acc + ops) == |t|
    ensures DstLen(AddAll(acc, ops)) == DstLen(acc) + DstLen(ops)
    ensures Run(t, AddAll(acc, ops)) == Run(t, acc + ops)
    decreases ops
  {
    LengthsConcat(acc, ops);
    if ops == [] {
      Whole(acc);
    } else {
      var op, rest := ops[0], ops[1..];
      LengthsNonNegative(acc);
      LengthsNonNegative(rest);
      var k := SrcLen(acc) + Src(op);
      AddOpMeaning(t[..k], acc, op);
      AddAllMeaning(t, AddOp(acc, op), rest);
      Cons(ops);
      Assoc(acc, [op], rest);
      SplitAt(t, k);
      RunConcat(t[..k], t[k..], AddOp(acc, op), rest);
      RunConcat(t[..k], t[k..], acc + [op], rest);
    }
  }
}
