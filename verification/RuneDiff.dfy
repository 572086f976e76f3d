/**
 * The server's diff: texts are compared rune by rune and measured in the bytes of their encoding.
 * The encoding is a parameter; all it has to do is give every rune at least one byte.
 */
module RuneDiffs {
  import opened Sequences
  import opened Changesets
  import opened OpLists
  import opened Convergence
  import opened Diffs

  type Encoding = char -> string

  ghost predicate Encodes(enc: Encoding) {
    forall c :: |enc(c)| > 0
  }

  function Bytes(runes: string, enc: Encoding): (r: string) {
    if runes == "" then "" else Bytes(Front(runes), enc) + enc(Last(runes))
  }

  function ByteOp(s: Seg, enc: Encoding): (op: Op) {
    match s
    case Same(c) => Retain(|enc(c)|)
    case Added(c) => Insert(enc(c))
    case Removed(c) => Delete(|enc(c)|)
  }

  function ByteOps(segs: seq<Seg>, enc: Encoding): (ops: seq<Op>)
    ensures |ops| == |segs|
    ensures forall i :: 0 <= i < |segs| ==> ops[i] == ByteOp(segs[i], enc)
    ensures Encodes(enc) ==> Positive(ops)
  {
    seq(|segs|, i requires 0 <= i < |segs| => ByteOp(segs[i], enc))
  }

  lemma ByteOpsSnoc(segs: seq<Seg>, s: Seg, enc: Encoding)
    ensures ByteOps(segs + [s], enc) == ByteOps(segs, enc) + [ByteOp(s, enc)]
  {
  }

  function RuneDiff(src: string, dst: string, enc: Encoding): (c: Changeset) {
    Changeset(|Bytes(src, enc)|, |Bytes(dst, enc)|, AddAll([], ByteOps(Segs(src, dst), enc)))
  }

  // ------------------------------------------------------------ what it does to the bytes

  lemma BytesSnoc(runes: string, enc: Encoding)
    requires runes != ""
    ensures var n := |Bytes(Front(runes), enc)|;
            && n <= |Bytes(runes, enc)| && Bytes(runes, enc)[..n] == Bytes(Front(runes), enc)
            && Bytes(runes, enc)[n..] == enc(Last(runes))
  {
  }

  lemma {:induction false} ByteSegsMeaning(src: string, dst: string, enc: Encoding)
    requires Encodes(enc)
    ensures SrcLen(ByteOps(Segs(src, dst), enc)) == |Bytes(src, enc)|
    ensures Run(Bytes(src, enc), ByteOps(Segs(src, dst), enc)) == Bytes(dst, enc)
    decreases |src| + |dst|
  {
    hide Run, ByteOps, SrcLen, Kept, Lcs;
    var text := Bytes(src, enc);
    if src == "" && dst == "" {
      NoSegs(enc);
    } else if src != "" && dst != "" && Last(src) == Last(dst) {
      ByteSegsMeaning(Front(src), Front(dst), enc);
      ByteOpsSnoc(Segs(Front(src), Front(dst)), Same(Last(src)), enc);
      BytesSnoc(src, enc);
      SnocMeaning(text, ByteOps(Segs(Front(src), Front(dst)), enc), Retain(|enc(Last(src))|), |Bytes(Front(src), enc)|);
    } else if dst != "" && (src == "" || Lcs(src, Front(dst)) >= Lcs(Front(src), dst)) {
      ByteSegsMeaning(src, Front(dst), enc);
      ByteOpsSnoc(Segs(src, Front(dst)), Added(Last(dst)), enc);
      SnocMeaning(text, ByteOps(Segs(src, Front(dst)), enc), Insert(enc(Last(dst))), |text|);
      Whole(text);
    } else {
      ByteSegsMeaning(Front(src), dst, enc);
      ByteOpsSnoc(Segs(Front(src), dst), Removed(Last(src)), enc);
      BytesSnoc(src, enc);
      SnocMeaning(text, ByteOps(Segs(Front(src), dst), enc), Delete(|enc(Last(src))|), |Bytes(Front(src), enc)|);
      Whole(Bytes(dst, enc));
    }
  }

  lemma NoSegs(enc: Encoding)
    ensures ByteOps([], enc) == [] && SrcLen([]) == 0 && Run("", []) == ""
  {
  }

  // ------------------------------------------------------------ rune granularity

  /** The runes a list of segments reads, and those it writes. */
  function Reads(segs: seq<Seg>): (r: string) {
    if segs == [] then ""
    else Reads(segs[..|segs| - 1]) + if segs[|segs| - 1].Added? then "" else [segs[|segs| - 1].c]
  }

  function Writes(segs: seq<Seg>): (r: string) {
    if segs == [] then ""
    else Writes(segs[..|segs| - 1]) + if segs[|segs| - 1].Removed? then "" else [segs[|segs| - 1].c]
  }

  lemma {:induction false} SegsRun(segs: seq<Seg>)
    ensures SrcLen(SegOps(segs)) == |Reads(segs)| && Run(Reads(segs), SegOps(segs)) == Writes(segs)
    decreases |segs|
  {
    hide Run, SegOps, SrcLen, Kept;
    if segs == [] {
      EmptySegs();
    } else {
      var n := |segs| - 1;
      var front, s := segs[..n], segs[n];
      SegsRun(front);
      SegOpsSnoc(front, s);
      assert segs == front + [s];
      SliceConcat(Reads(front), if s.Added? then "" else [s.c], |Reads(front)|);
      Whole(Reads(front));
      Whole(Writes(front));
      SnocMeaning(Reads(segs), SegOps(front), SegOp(s), |Reads(front)|);
    }
  }

  /**
   * The diff is canonical and, in bytes, turns the one text into the other; it keeps a longest
   * common subsequence of runes, and no rune-by-rune edit between the two texts keeps more.
   */
  lemma RuneDiffIsMinimal(src: string, dst: string, enc: Encoding)
    requires Encodes(enc)
    ensures var c := RuneDiff(src, dst, enc);
            && Canonical(c) && c.oldLen == |Bytes(src, enc)| && c.newLen == |Bytes(dst, enc)|
            && Run(Bytes(src, enc), c.ops) == Bytes(dst, enc)
    ensures Kept(SegOps(Segs(src, dst))) == Lcs(src, dst)
    ensures forall segs :: Reads(segs) == src && Writes(segs) == dst ==>
            Kept(SegOps(segs)) <= Kept(SegOps(Segs(src, dst)))
  {
    hide Run, AddAll, ByteOps, SegOps, Kept, Lcs, Segs, Reads, Writes;
    var raw, text := ByteOps(Segs(src, dst), enc), Bytes(src, enc);
    ByteSegsMeaning(src, dst, enc);
    NoSegs(enc);
    AddAllMeaning(text, [], raw);
    Whole(raw);
    RunLength(text, AddAll([], raw));
    SegsMeaning(src, dst);
    forall segs | Reads(segs) == src && Writes(segs) == dst
      ensures Kept(SegOps(segs)) <= Lcs(src, dst)
    {
      SegsRun(segs);
      KeptIsCommon(src, SegOps(segs));
    }
  }

  /** For an encoding that tells texts apart, the diff is the identity exactly when they are equal. */
  lemma RuneDiffIsIdentityExactlyWhenEqual(src: string, dst: string, enc: Encoding)
    requires Encodes(enc) && forall x, y :: Bytes(x, enc) == Bytes(y, enc) ==> x == y
    ensures IsIdentity(RuneDiff(src, dst, enc)) <==> src == dst
  {
    hide Run, ByteOps, Segs, AddAll;
    RuneDiffIsMinimal(src, dst, enc);
    if IsIdentity(RuneDiff(src, dst, enc)) {
      IdentityIsIdentity(RuneDiff(src, dst, enc), Bytes(src, enc));
    }
    if src == dst {
      ByteSegsMeaning(src, src, enc);
      EqualRetains(src, enc);
      AddRetains(0, ByteOps(Segs(src, src), enc));
      assert Identity(0).ops == [];
    }
  }

  lemma {:induction false} EqualRetains(s: string, enc: Encoding)
    ensures AllRetain(ByteOps(Segs(s, s), enc))
    decreases |s|
  {
    if s != "" {
      EqualRetains(Front(s), enc);
      ByteOpsSnoc(Segs(Front(s), Front(s)), Same(Last(s)), enc);
    }
  }

  method ComputeRuneDiff(src: string, dst: string, enc: Encoding) returns (c: Changeset)
    ensures c == RuneDiff(src, dst, enc)
  {
    hide Segs;
    var all := ComputeSegs(src, dst);
    var ops: seq<Op> := [];
    Whole(ByteOps(all, enc));
    for i := 0 to |all|
      invariant AddAll(ops, ByteOps(all, enc)[i..]) == AddAll([], ByteOps(all, enc))
    {
      DropDrop(ByteOps(all, enc), i, 1);
      ops := AddOp(ops, ByteOp(all[i], enc));
    }
    return Changeset(|Bytes(src, enc)|, |Bytes(dst, enc)|, ops);
  }
}
