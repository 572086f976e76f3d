/** Which of the minimal diffs is chosen: a common tail stays, and deletions go before insertions. */
module DiffShapes {
  import opened Sequences
  import opened Changesets
  import opened OpLists
  import opened Diffs
  import opened RuneDiffs

  // ------------------------------------------------------------ a common tail

  function Sames(s: string): (r: seq<Seg>)
    ensures |r| == |s|
  {
    seq(|s|, i requires 0 <= i < |s| => Same(s[i]))
  }

  /** What two texts end in alike is kept, and the rest is the diff of the rest. */
  lemma {:induction false} TailSegs(x: string, y: string, s: string)
    ensures Segs(x + s, y + s) == Segs(x, y) + Sames(s)
    decreases |s|
  {
    if s == "" {
      Whole(x);
      Whole(y);
      Whole(Segs(x, y));
    } else {
      var s', c := Front(s), Last(s);
      TailSegs(x, y, s');
      SnocText(x, s);
      SnocText(y, s);
      FrontLast(x + s', c);
      FrontLast(y + s', c);
      assert Sames(s) == Sames(s') + [Same(c)];
      Assoc(Segs(x, y), Sames(s'), [Same(c)]);
    }
  }

  lemma {:induction false} MergedTail(acc: seq<Op>, s: string)
    requires s != ""
    ensures AddAll(acc, SegOps(Sames(s))) == AddOp(acc, Retain(|s|))
    decreases |s|
  {
    var s', c := Front(s), Last(s);
    assert Sames(s) == Sames(s') + [Same(c)];
    SegOpsSnoc(Sames(s'), Same(c));
    AddAllConcat(acc, SegOps(Sames(s')), [Retain(1)]);
    assert [Retain(1)][1..] == [];
    if s' == "" {
      assert SegOps(Sames(s')) == [];
    } else {
      MergedTail(acc, s');
      RetainTwice(acc, |s'|);
    }
  }

  lemma RetainTwice(acc: seq<Op>, n: nat)
    ensures AddOp(AddOp(acc, Retain(n)), Retain(1)) == AddOp(acc, Retain(n + 1))
  {
    hide AddOp;
    var k := |acc| - 1;
    if k >= 0 && acc[k].Retain? {
      PrefixSnoc(acc, k);
      Whole(acc);
      RetainThrice(acc[..k], acc[k].len, n);
    } else {
      Appended(acc, n);
      Appended(acc, n + 1);
      RetainOnto(acc, n, 1);
    }
  }

  lemma RetainThrice(front: seq<Op>, m: int, n: int)
    ensures var acc := front + [Retain(m)];
            AddOp(AddOp(acc, Retain(n)), Retain(1)) == AddOp(acc, Retain(n + 1))
  {
    hide AddOp;
    RetainOnto(front, m, n);
    RetainOnto(front, m, n + 1);
    RetainOnto(front, m + n, 1);
  }

  lemma RetainOnto(front: seq<Op>, m: int, n: int)
    ensures AddOp(front + [Retain(m)], Retain(n)) == front + [Retain(m + n)]
  {
    assert (front + [Retain(m)])[..|front|] == front;
  }

  lemma Appended(acc: seq<Op>, n: int)
    requires acc == [] || !acc[|acc| - 1].Retain?
    ensures AddOp(acc, Retain(n)) == acc + [Retain(n)]
  {
  }

  /** The diff of two texts with a common tail is that of the texts without it, then retains the tail. */
  lemma TailIsRetained(x: string, y: string, s: string)
    requires s != ""
    ensures Diff(x + s, y + s).ops == AddOp(Diff(x, y).ops, Retain(|s|))
  {
    hide AddAll, AddOp, Segs;
    TailSegs(x, y, s);
    assert SegOps(Segs(x, y) + Sames(s)) == SegOps(Segs(x, y)) + SegOps(Sames(s));
    AddAllConcat([], SegOps(Segs(x, y)), SegOps(Sames(s)));
    MergedTail(AddAll([], SegOps(Segs(x, y))), s);
  }

  // ------------------------------------------------------------ replacements

  /** No deletion directly after an insertion. */
  predicate DeletesFirst(ops: seq<Op>) {
    forall i :: 0 <= i < |ops| - 1 && ops[i].Insert? ==> !ops[i + 1].Delete?
  }

  predicate RemovesFirst(segs: seq<Seg>) {
    forall i :: 0 <= i < |segs| - 1 && segs[i].Added? ==> !segs[i + 1].Removed?
  }

  /** Where a removal comes last, keeping the last of the result would have lost more. */
  lemma {:induction false} LastAdded(src: string, dst: string)
    requires src != "" && Segs(src, dst) != []
    ensures Segs(src, dst)[|Segs(src, dst)| - 1].Removed? && Segs(Front(src), dst) != [] ==>
              !Segs(Front(src), dst)[|Segs(Front(src), dst)| - 1].Added?
  {
    if dst != "" && Last(src) != Last(dst) && Lcs(src, Front(dst)) < Lcs(Front(src), dst) {
      LcsFront(src, Front(dst));
      LcsFront(Front(src), dst);
      LcsFront(Front(src), Front(dst));
    }
  }

  lemma {:induction false} SegsRemoveFirst(src: string, dst: string)
    ensures RemovesFirst(Segs(src, dst))
    decreases |src| + |dst|
  {
    hide Lcs;
    if src == "" && dst == "" {
    } else if src != "" && dst != "" && Last(src) == Last(dst) {
      SegsRemoveFirst(Front(src), Front(dst));
    } else if dst != "" && (src == "" || Lcs(src, Front(dst)) >= Lcs(Front(src), dst)) {
      SegsRemoveFirst(src, Front(dst));
    } else {
      SegsRemoveFirst(Front(src), dst);
      LastAdded(src, dst);
    }
  }

  lemma AddOpShape(acc: seq<Op>, op: Op, rest: seq<Op>)
    requires DeletesFirst(acc + ([op] + rest))
    ensures DeletesFirst(AddOp(acc, op) + rest)
  {
    var k, ops, r := |acc| - 1, acc + ([op] + rest), AddOp(acc, op) + rest;
    if k >= 0 && SameType(acc[k], op) {
      forall i | 0 <= i < |r| - 1 && r[i].Insert?
        ensures !r[i + 1].Delete?
      {
        if i < k {
          assert ops[i] == r[i] && ops[i + 1] == acc[i + 1];
        } else {
          assert ops[i + 1] == ([op] + rest)[i - k] && ops[i + 2] == r[i + 1];
        }
      }
    } else {
      Assoc(acc, [op], rest);
    }
  }

  /** Merging neighbours of one type keeps deletions first. */
  lemma {:induction false} AddAllShape(acc: seq<Op>, ops: seq<Op>)
    requires DeletesFirst(acc + ops)
    ensures DeletesFirst(AddAll(acc, ops))
    decreases ops
  {
    hide AddOp, DeletesFirst;
    if ops == [] {
      Whole(acc);
    } else {
      Cons(ops);
      AddOpShape(acc, ops[0], ops[1..]);
      AddAllShape(AddOp(acc, ops[0]), ops[1..]);
    }
  }

  lemma OpsDeleteFirst(segs: seq<Seg>, enc: Encoding)
    requires RemovesFirst(segs)
    ensures DeletesFirst(SegOps(segs)) && DeletesFirst(ByteOps(segs, enc))
  {
  }

  /** In both diffs a replacement deletes before it inserts. */
  lemma ReplacementsDeleteFirst(src: string, dst: string, enc: Encoding)
    ensures DeletesFirst(Diff(src, dst).ops) && DeletesFirst(RuneDiff(src, dst, enc).ops)
  {
    hide AddAll, Segs, DeletesFirst, RemovesFirst, SegOps, ByteOps;
    SegsRemoveFirst(src, dst);
    var segs := Segs(src, dst);
    OpsDeleteFirst(segs, enc);
    Whole(SegOps(segs));
    Whole(ByteOps(segs, enc));
    AddAllShape([], SegOps(segs));
    AddAllShape([], ByteOps(segs, enc));
  }
}
