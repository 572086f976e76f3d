/** The longest-common-subsequence diff that turns two texts into a changeset. */
module Diffs {
  import opened Numbers
  import opened Sequences
  import opened Changesets
  import opened OpLists
  import opened Convergence

  function Front(s: string): (r: string)
    requires s != ""
  {
    s[..|s| - 1]
  }

  function Last(s: string): (c: char)
    requires s != ""
  {
    s[|s| - 1]
  }

  /** Length of the longest common subsequence, by the table's recurrence. */
  function Lcs(x: string, y: string): (n: nat)
    decreases |x| + |y|
  {
    if x == "" || y == "" then 0
    else if Last(x) == Last(y) then Lcs(Front(x), Front(y)) + 1
    else Max(Lcs(Front(x), y), Lcs(x, Front(y)))
  }

  /** Dropping the last unit of either text loses at most one. */
  lemma {:induction false} LcsFront(x: string, y: string)
    ensures x != "" ==> Lcs(Front(x), y) <= Lcs(x, y) <= Lcs(Front(x), y) + 1
    ensures y != "" ==> Lcs(x, Front(y)) <= Lcs(x, y) <= Lcs(x, Front(y)) + 1
    decreases |x| + |y|
  {
    if x != "" && y != "" {
      LcsFront(Front(x), y);
      LcsFront(x, Front(y));
    }
  }

  lemma FrontLast(x: string, c: char)
    ensures Front(x + [c]) == x && Last(x + [c]) == c
  {
  }

  lemma {:induction false} LcsGrows(x: string, y: string, s: string)
    ensures Lcs(x, y) <= Lcs(x, y + s)
    ensures Lcs(x, y) <= Lcs(x + s, y)
    ensures Lcs(x, y) + |s| == Lcs(x + s, y + s)
    decreases |s|
  {
    if s == "" {
      Whole(x);
      Whole(y);
    } else {
      var s', c := Front(s), Last(s);
      LcsGrows(x, y, s');
      SnocText(x, s);
      SnocText(y, s);
      FrontLast(x + s', c);
      FrontLast(y + s', c);
      LcsFront(x, y + s);
      LcsFront(x + s, y);
    }
  }

  lemma SnocText(x: string, s: string)
    requires s != ""
    ensures x + s == (x + Front(s)) + [Last(s)]
  {
  }

  /** Document units an operation list retains. */
  function Kept(ops: seq<Op>): (k: int) {
    if ops == [] then 0 else (if ops[0].Retain? then ops[0].len else 0) + Kept(ops[1..])
  }

  lemma {:induction false} KeptConcat(x: seq<Op>, y: seq<Op>)
    ensures Kept(x + y) == Kept(x) + Kept(y)
  {
    if x == [] {
      Whole(y);
    } else {
      KeptConcat(x[1..], y);
      SliceConcat(x, y, 1);
    }
  }

  lemma RunSnoc(t: string, init: seq<Op>, op: Op)
    requires NonNegative(init) && Size(op) >= 0 && SrcLen(init + [op]) == |t|
    ensures var i := SrcLen(init);
            && 0 <= i <= |t| && Src(op) == |t| - i
            && NonNegative(init + [op])
            && Run(t, init + [op]) == Run(t[..i], init) + Piece(t[i..], op)
  {
    LengthsConcat(init, [op]);
    LengthsNonNegative(init);
    OneLength(op);
    var i := SrcLen(init);
    SplitAt(t, i);
    RunOne(t[i..], op);
    RunConcat(t[..i], t[i..], init, [op]);
  }

  /** No operation list retains more than a longest common subsequence. */
  lemma {:induction false} KeptIsCommon(t: string, ops: seq<Op>)
    requires Positive(ops) && SrcLen(ops) == |t|
    ensures Kept(ops) <= Lcs(t, Run(t, ops))
    decreases |ops|
  {
    hide Run, Lcs;
    if ops != [] {
      var k := |ops| - 1;
      var init, op := ops[..k], ops[k];
      PrefixSnoc(ops, k);
      Whole(ops);
      RunSnoc(t, init, op);
      var i := SrcLen(init);
      var r := Run(t[..i], init);
      KeptIsCommon(t[..i], init);
      KeptConcat(init, [op]);
      SplitAt(t, i);
      Whole(t[..i]);
      Whole(r);
      LcsGrows(t[..i], r, if op.Insert? then op.chars else t[i..]);
    }
  }

  // ------------------------------------------------------------ the backtrack

  datatype Seg = Same(c: char) | Added(c: char) | Removed(c: char)

  /** The choices of the backtracking loop, in document order. */
  function Segs(src: string, dst: string): (r: seq<Seg>)
    decreases |src| + |dst|
  {
    if src == "" && dst == "" then []
    else if src != "" && dst != "" && Last(src) == Last(dst) then
      Segs(Front(src), Front(dst)) + [Same(Last(src))]
    else if dst != "" && (src == "" || Lcs(src, Front(dst)) >= Lcs(Front(src), dst)) then
      Segs(src, Front(dst)) + [Added(Last(dst))]
    else Segs(Front(src), dst) + [Removed(Last(src))]
  }

  function SegOp(s: Seg): (op: Op) {
    match s
    case Same(_) => Retain(1)
    case Added(c) => Insert([c])
    case Removed(_) => Delete(1)
  }

  function SegOps(segs: seq<Seg>): (ops: seq<Op>)
    ensures |ops| == |segs| && Positive(ops)
    ensures forall i :: 0 <= i < |segs| ==> ops[i] == SegOp(segs[i])
  {
    seq(|segs|, i requires 0 <= i < |segs| => SegOp(segs[i]))
  }

  lemma SegOpsSnoc(segs: seq<Seg>, s: Seg)
    ensures SegOps(segs + [s]) == SegOps(segs) + [SegOp(s)]
  {
  }

  function Diff(src: string, dst: string): (c: Changeset) {
    Changeset(|src|, |dst|, AddAll([], SegOps(Segs(src, dst))))
  }

  lemma SnocMeaning(src: string, init: seq<Op>, op: Op, cut: nat)
    requires NonNegative(init) && Size(op) >= 0 && cut <= |src|
    requires SrcLen(init) == cut && Src(op) == |src| - cut
    ensures NonNegative(init + [op]) && SrcLen(init + [op]) == |src|
    ensures Run(src, init + [op]) == Run(src[..cut], init) + Piece(src[cut..], op)
    ensures Kept(init + [op]) == Kept(init) + if op.Retain? then op.len else 0
  {
    LengthsConcat(init, [op]);
    OneLength(op);
    RunSnoc(src, init, op);
    KeptConcat(init, [op]);
  }

  lemma LastSlice(s: string)
    requires s != ""
    ensures s[|s| - 1..] == [Last(s)] && s == Front(s) + [Last(s)]
  {
  }

  /** The unmerged diff turns `src` into `dst` and retains a longest common subsequence. */
  lemma {:induction false} SegsMeaning(src: string, dst: string)
    ensures SrcLen(SegOps(Segs(src, dst))) == |src|
    ensures Run(src, SegOps(Segs(src, dst))) == dst
    ensures Kept(SegOps(Segs(src, dst))) == Lcs(src, dst)
    decreases |src| + |dst|
  {
    hide Run, SegOps, SrcLen, Kept;
    if src == "" && dst == "" {
      EmptySegs();
    } else if src != "" && dst != "" && Last(src) == Last(dst) {
      SegsMeaning(Front(src), Front(dst));
      SegOpsSnoc(Segs(Front(src), Front(dst)), Same(Last(src)));
      SnocMeaning(src, SegOps(Segs(Front(src), Front(dst))), Retain(1), |src| - 1);
      LastSlice(src);
      LastSlice(dst);
    } else if dst != "" && (src == "" || Lcs(src, Front(dst)) >= Lcs(Front(src), dst)) {
      SegsMeaning(src, Front(dst));
      SegOpsSnoc(Segs(src, Front(dst)), Added(Last(dst)));
      SnocMeaning(src, SegOps(Segs(src, Front(dst))), Insert([Last(dst)]), |src|);
      Whole(src);
      LastSlice(dst);
    } else {
      SegsMeaning(Front(src), dst);
      SegOpsSnoc(Segs(Front(src), dst), Removed(Last(src)));
      SnocMeaning(src, SegOps(Segs(Front(src), dst)), Delete(1), |src| - 1);
      LastSlice(src);
      Whole(dst);
    }
  }

  lemma EmptySegs()
    ensures SegOps([]) == [] && SrcLen([]) == 0 && Run("", []) == "" && Kept([]) == 0
  {
  }

  lemma AddOpKept(acc: seq<Op>, op: Op)
    ensures Kept(AddOp(acc, op)) == Kept(acc) + if op.Retain? then op.len else 0
  {
    KeptConcat(acc, [op]);
    var k := |acc| - 1;
    if k >= 0 && SameType(acc[k], op) {
      SnocSnoc(acc, op);
      KeptConcat(acc[..k], [acc[k]]);
      KeptConcat(acc[..k], [OpLists.Joined(acc[k], op)]);
    }
  }

  lemma {:induction false} AddAllKept(acc: seq<Op>, ops: seq<Op>)
    ensures Kept(AddAll(acc, ops)) == Kept(acc) + Kept(ops)
    decreases ops
  {
    if ops != [] {
      AddOpKept(acc, ops[0]);
      AddAllKept(AddOp(acc, ops[0]), ops[1..]);
    }
  }

  /** The diff is correct, canonical and minimal: nothing that does the same job retains more. */
  lemma DiffIsMinimal(src: string, dst: string)
    ensures Canonical(Diff(src, dst)) && Diff(src, dst).oldLen == |src| && Diff(src, dst).newLen == |dst|
    ensures Run(src, Diff(src, dst).ops) == dst
    ensures Kept(Diff(src, dst).ops) == Lcs(src, dst)
    ensures forall c :: Valid(c) && c.oldLen == |src| && Run(src, c.ops) == dst ==>
            Kept(c.ops) <= Kept(Diff(src, dst).ops)
  {
    hide Run, AddAll, SegOps, Kept, Lcs;
    var raw := SegOps(Segs(src, dst));
    SegsMeaning(src, dst);
    EmptySegs();
    AddAllMeaning(src, [], raw);
    AddAllKept([], raw);
    Whole(raw);
    RunLength(src, AddAll([], raw));
    forall c | Valid(c) && c.oldLen == |src| && Run(src, c.ops) == dst
      ensures Kept(c.ops) <= Lcs(src, dst)
    {
      KeptIsCommon(src, c.ops);
    }
  }

  lemma {:induction false} SegsOfEqual(s: string)
    ensures AllRetain(SegOps(Segs(s, s)))
    decreases |s|
  {
    if s != "" {
      SegsOfEqual(Front(s));
      SegOpsSnoc(Segs(Front(s), Front(s)), Same(Last(s)));
    }
  }

  /** The diff is the identity exactly when there is nothing to change. */
  lemma DiffIsIdentityExactlyWhenEqual(src: string, dst: string)
    ensures IsIdentity(Diff(src, dst)) <==> src == dst
  {
    DiffIsMinimal(src, dst);
    if IsIdentity(Diff(src, dst)) {
      IdentityIsIdentity(Diff(src, dst), src);
    }
    if src == dst {
      SegsOfEqual(src);
      SegsMeaning(src, src);
      AddRetains(0, SegOps(Segs(src, src)));
    }
  }

  // ------------------------------------------------------------ the loops

  ghost predicate IsTable(src: string, dst: string, dp: array2<int>)
    reads dp
  {
    && dp.Length0 == |src| + 1 && dp.Length1 == |dst| + 1
    && forall i, j :: 0 <= i <= |src| && 0 <= j <= |dst| ==> dp[i, j] == Lcs(src[..i], dst[..j])
  }

  lemma LcsRecurrence(src: string, dst: string, i: nat, j: nat)
    requires 0 < i <= |src| && 0 < j <= |dst|
    ensures Lcs(src[..i], dst[..j])
         == if src[i - 1] == dst[j - 1] then Lcs(src[..i - 1], dst[..j - 1]) + 1
            else Max(Lcs(src[..i - 1], dst[..j]), Lcs(src[..i], dst[..j - 1]))
  {
    TakeTake(src, i - 1, i);
    TakeTake(dst, j - 1, j);
  }

  /** The table, row by row; the border stays zero. */
  method FillTable(src: string, dst: string) returns (dp: array2<int>)
    ensures fresh(dp) && IsTable(src, dst, dp)
  {
    hide Lcs;
    var n, m := |src|, |dst|;
    dp := new int[n + 1, m + 1]((_, _) => 0);
    forall k | 0 <= k <= n
      ensures Lcs(src[..k], dst[..0]) == 0
    {
      LcsBorder(src[..k], dst[..0]);
    }
    forall k | 0 <= k <= m
      ensures Lcs(src[..0], dst[..k]) == 0
    {
      LcsBorder(src[..0], dst[..k]);
    }
    for i := 1 to n + 1
      invariant forall k, l :: 0 <= k < i && 0 <= l <= m ==> dp[k, l] == Lcs(src[..k], dst[..l])
      invariant forall k :: i <= k <= n ==> dp[k, 0] == 0
    {
      for j := 1 to m + 1
        invariant forall k, l :: 0 <= k < i && 0 <= l <= m ==> dp[k, l] == Lcs(src[..k], dst[..l])
        invariant forall l :: 0 <= l < j ==> dp[i, l] == Lcs(src[..i], dst[..l])
        invariant forall k :: i < k <= n ==> dp[k, 0] == 0
      {
        LcsRecurrence(src, dst, i, j);
        if src[i - 1] == dst[j - 1] {
          dp[i, j] := dp[i - 1, j - 1] + 1;
        } else if dp[i - 1, j] > dp[i, j - 1] {
          dp[i, j] := dp[i - 1, j];
        } else {
          dp[i, j] := dp[i, j - 1];
        }
      }
    }
  }

  lemma LcsBorder(x: string, y: string)
    requires x == "" || y == ""
    ensures Lcs(x, y) == 0
  {
  }

  function Reversed<T>(s: seq<T>): (r: seq<T>)
    ensures |r| == |s|
    ensures forall i :: 0 <= i < |s| ==> r[i] == s[|s| - 1 - i]
  {
    seq(|s|, i requires 0 <= i < |s| => s[|s| - 1 - i])
  }

  lemma ReversedSnoc<T>(s: seq<T>, x: T, tail: seq<T>)
    ensures tail + Reversed(s + [x]) == (tail + [x]) + Reversed(s)
    ensures Reversed(Reversed(s)) == s
  {
  }

  /** Backtracking: the segments come out last first. */
  method Backtrack(src: string, dst: string, dp: array2<int>) returns (segs: seq<Seg>)
    requires IsTable(src, dst, dp)
    ensures segs == Reversed(Segs(src, dst))
  {
    hide Lcs, Segs, Reversed;
    segs := [];
    var i, j := |src|, |dst|;
    Whole(src);
    Whole(dst);
    Whole(Reversed(Segs(src, dst)));
    while i > 0 || j > 0
      invariant 0 <= i <= |src| && 0 <= j <= |dst|
      invariant segs + Reversed(Segs(src[..i], dst[..j])) == Reversed(Segs(src, dst))
      decreases i + j
    {
      SegsStep(src, dst, i, j, segs);
      if i > 0 && j > 0 && src[i - 1] == dst[j - 1] {
        segs := segs + [Same(src[i - 1])];
        i, j := i - 1, j - 1;
      } else if j > 0 && (i == 0 || dp[i, j - 1] >= dp[i - 1, j]) {
        segs := segs + [Added(dst[j - 1])];
        j := j - 1;
      } else {
        segs := segs + [Removed(src[i - 1])];
        i := i - 1;
      }
    }
    SegsNone(src[..0], dst[..0]);
    Whole(segs);
  }

  lemma SegsNone(x: string, y: string)
    requires x == "" && y == ""
    ensures Reversed(Segs(x, y)) == []
  {
  }

  lemma SegsStep(src: string, dst: string, i: nat, j: nat, acc: seq<Seg>)
    requires i <= |src| && j <= |dst| && (i > 0 || j > 0)
    ensures acc + Reversed(Segs(src[..i], dst[..j]))
         == if i > 0 && j > 0 && src[i - 1] == dst[j - 1] then
              (acc + [Same(src[i - 1])]) + Reversed(Segs(src[..i - 1], dst[..j - 1]))
            else if j > 0 && (i == 0 || Lcs(src[..i], dst[..j - 1]) >= Lcs(src[..i - 1], dst[..j])) then
              (acc + [Added(dst[j - 1])]) + Reversed(Segs(src[..i], dst[..j - 1]))
            else (acc + [Removed(src[i - 1])]) + Reversed(Segs(src[..i - 1], dst[..j]))
  {
    hide Lcs, Reversed;
    if i > 0 {
      TakeTake(src, i - 1, i);
    }
    if j > 0 {
      TakeTake(dst, j - 1, j);
    }
    if i > 0 && j > 0 && src[i - 1] == dst[j - 1] {
      ReversedSnoc(Segs(src[..i - 1], dst[..j - 1]), Same(src[i - 1]), acc);
    } else if j > 0 && (i == 0 || Lcs(src[..i], dst[..j - 1]) >= Lcs(src[..i - 1], dst[..j])) {
      ReversedSnoc(Segs(src[..i], dst[..j - 1]), Added(dst[j - 1]), acc);
    } else {
      ReversedSnoc(Segs(src[..i - 1], dst[..j]), Removed(src[i - 1]), acc);
    }
  }

  /** In-place reversal by swapping from both ends. */
  method Reverse(a: array<Seg>)
    modifies a
    ensures a[..] == Reversed(old(a[..]))
  {
    var n, l, r := a.Length, 0, a.Length - 1;
    while l < r
      invariant 0 <= l <= n && r == n - 1 - l && l <= r + 2
      invariant forall k :: 0 <= k < l ==> a[k] == old(a[n - 1 - k]) && a[n - 1 - k] == old(a[k])
      invariant forall k :: l <= k <= r ==> a[k] == old(a[k])
    {
      a[l], a[r] := a[r], a[l];
      l, r := l + 1, r - 1;
    }
  }

  /** Table, walk and reversal: the segments in document order. */
  method ComputeSegs(src: string, dst: string) returns (all: seq<Seg>)
    ensures all == Segs(src, dst)
  {
    hide Segs;
    var dp := FillTable(src, dst);
    var back := Backtrack(src, dst, dp);
    var segs := new Seg[|back|](i requires 0 <= i < |back| => back[i]);
    assert segs[..] == back;
    Reverse(segs);
    ReversedSnoc(Segs(src, dst), Same(' '), []);
    return segs[..];
  }

  method ComputeDiff(src: string, dst: string) returns (c: Changeset)
    ensures c == Diff(src, dst)
  {
    hide Segs;
    var all := ComputeSegs(src, dst);
    var ops: seq<Op> := [];
    Whole(SegOps(all));
    for i := 0 to |all|
      invariant AddAll(ops, SegOps(all)[i..]) == AddAll([], SegOps(all))
    {
      DropDrop(SegOps(all), i, 1);
      ops := AddOp(ops, SegOp(all[i]));
    }
    return Changeset(|src|, |dst|, ops);
  }
}
