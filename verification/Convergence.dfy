/**
 * What Follow is for: A . f(A, B) and B . f(B, A) give the same text. The law holds exactly
 * when, in every gap between document units, the two runs of insertions merge to the same text
 * either way round; changesets without adjacent insertions always meet that condition.
 */
module Convergence {
  import opened Numbers
  import opened Options
  import opened Sequences
  import opened Changesets
  import opened OpLists
  import opened Follows

  ghost predicate Concurrent(t: string, a: seq<Op>, b: seq<Op>) {
    Positive(a) && Positive(b) && SrcLen(a) == SrcLen(b) == |t|
  }

  /** The rebased list reads what A produced. */
  lemma {:induction false} FollowLengths(a: seq<Op>, b: seq<Op>)
    requires Positive(a) && Positive(b) && SrcLen(a) == SrcLen(b)
    ensures SrcLen(FollowOps(a, b)) == DstLen(a)
    decreases Units(a) + Units(b)
  {
    if TakesA(a, b) {
      FollowLengths(a[1..], b);
      LengthsConcat([Retain(|a[0].chars|)], FollowOps(a[1..], b));
    } else if HeadInsert(b) {
      FollowLengths(a, b[1..]);
      LengthsConcat([b[0]], FollowOps(a, b[1..]));
    } else if OnDocument(a, b) {
      var n := Min(a[0].len, b[0].len);
      UnitsHead(a);
      UnitsHead(b);
      AdvanceLengths(a, n);
      AdvanceLengths(b, n);
      FollowLengths(Advance(a, n), Advance(b, n));
      LengthsConcat(Rebased(a[0], b[0], n), FollowOps(Advance(a, n), Advance(b, n)));
    } else {
      DocumentLeft(a);
      DocumentLeft(b);
    }
  }

  /** The document after A and then the rebased B. */
  ghost function Final(t: string, a: seq<Op>, b: seq<Op>): (r: string)
    requires Concurrent(t, a, b)
  {
    RunLength(t, a);
    FollowLengths(a, b);
    Run(Run(t, a), FollowOps(a, b))
  }

  // ------------------------------------------------------------ how the walk builds the text

  lemma FinalTakeA(t: string, a: seq<Op>, b: seq<Op>)
    requires Concurrent(t, a, b) && TakesA(a, b)
    ensures Concurrent(t, a[1..], b)
    ensures Final(t, a, b) == a[0].chars + Final(t, a[1..], b)
  {
    RunHead(t, a);
    Whole(t);
    var s, u := a[0].chars, Run(t, a[1..]);
    RunLength(t, a[1..]);
    FollowLengths(a[1..], b);
    hide Run;
    RunCons(s, u, Retain(|s|), FollowOps(a[1..], b));
  }

  lemma FinalTakeB(t: string, a: seq<Op>, b: seq<Op>)
    requires Concurrent(t, a, b) && !TakesA(a, b) && HeadInsert(b)
    ensures Concurrent(t, a, b[1..])
    ensures Final(t, a, b) == b[0].chars + Final(t, a, b[1..])
  {
    var u := Run(t, a);
    RunLength(t, a);
    FollowLengths(a, b[1..]);
    hide Run;
    Whole(u);
    RunCons("", u, b[0], FollowOps(a, b[1..]));
  }

  lemma FinalBoth(t: string, a: seq<Op>, b: seq<Op>, n: nat)
    requires Concurrent(t, a, b) && OnDocument(a, b) && n == Min(a[0].len, b[0].len)
    ensures 0 < n <= |t| && Concurrent(t[n..], Advance(a, n), Advance(b, n))
    ensures Final(t, a, b)
         == (if a[0].Retain? && b[0].Retain? then t[..n] else "") + Final(t[n..], Advance(a, n), Advance(b, n))
  {
    RunAdvance(t, a, n);
    RunAdvance(t, b, n);
    UnitsHead(a);
    UnitsHead(b);
    var a', b' := Advance(a, n), Advance(b, n);
    var u, rest := Run(t[n..], a'), FollowOps(a', b');
    RunLength(t[n..], a');
    FollowLengths(a', b');
    FollowStretch(a, b, n);
    FinalEmit(t[..n], u, a[0], b[0], rest);
  }

  /** One document stretch: A's output of it, then what B still does to that output. */
  lemma FinalEmit(t: string, u: string, aOp: Op, bOp: Op, rest: seq<Op>)
    requires |t| > 0 && !aOp.Insert? && !bOp.Insert? && |t| <= Size(aOp)
    requires Positive(rest) && SrcLen(rest) == |u|
    ensures var p := Piece(t, Chunk(aOp, |t|));
            var e := Rebased(aOp, bOp, |t|);
            && NonNegative(e + rest) && SrcLen(e + rest) == |p + u|
            && Run(p + u, e + rest) == (if aOp.Retain? && bOp.Retain? then t else "") + Run(u, rest)
  {
    hide Run;
    Whole(u);
    Whole(rest);
    if aOp.Retain? {
      var op := Rebased(aOp, bOp, |t|)[0];
      assert Rebased(aOp, bOp, |t|) == [op];
      RunCons(t, u, op, rest);
    } else {
      Whole(Run(u, rest));
    }
  }

  // ------------------------------------------------------------ the exact condition

  /** The list from its first document operation on. */
  function Strip(ops: seq<Op>): (r: seq<Op>)
    ensures !HeadInsert(r)
    ensures Positive(ops) ==> Positive(r)
    ensures Positive(ops) ==> Units(r) <= Units(ops)
  {
    if HeadInsert(ops) then Strip(ops[1..]) else ops
  }

  /** The two leading runs of insertions, merged by the tie-break with `a` preferred. */
  function GapText(a: seq<Op>, b: seq<Op>): (s: string)
    decreases |a| + |b|
  {
    if TakesA(a, b) then a[0].chars + GapText(a[1..], b)
    else if HeadInsert(b) then b[0].chars + GapText(a, b[1..])
    else ""
  }

  /** Every gap's insertions merge to the same text whichever side is preferred. */
  predicate TiesAgree(a: seq<Op>, b: seq<Op>)
    requires Positive(a) && Positive(b)
    decreases Units(a) + Units(b)
  {
    var a', b' := Strip(a), Strip(b);
    && GapText(a, b) == GapText(b, a)
    && (a' != [] && b' != [] ==>
          var n := Min(a'[0].len, b'[0].len);
          UnitsHead(a');
          UnitsHead(b');
          TiesAgree(Advance(a', n), Advance(b', n)))
  }

  function RunChars(ops: seq<Op>): nat {
    if HeadInsert(ops) then |ops[0].chars| + RunChars(ops[1..]) else 0
  }

  lemma {:induction false} GapLength(a: seq<Op>, b: seq<Op>)
    ensures |GapText(a, b)| == RunChars(a) + RunChars(b)
    decreases |a| + |b|
  {
    if TakesA(a, b) {
      GapLength(a[1..], b);
    } else if HeadInsert(b) {
      GapLength(a, b[1..]);
    }
  }

  /** The walk first writes the merged gap, then continues from the document operations. */
  lemma {:induction false} FinalGap(t: string, a: seq<Op>, b: seq<Op>)
    requires Concurrent(t, a, b)
    ensures Concurrent(t, Strip(a), Strip(b))
    ensures Final(t, a, b) == GapText(a, b) + Final(t, Strip(a), Strip(b))
    decreases |a| + |b|
  {
    hide Final, LexLeq;
    if TakesA(a, b) {
      FinalTakeA(t, a, b);
      FinalGap(t, a[1..], b);
      Assoc(a[0].chars, GapText(a[1..], b), Final(t, Strip(a), Strip(b)));
    } else if HeadInsert(b) {
      FinalTakeB(t, a, b);
      FinalGap(t, a, b[1..]);
      Assoc(b[0].chars, GapText(a, b[1..]), Final(t, Strip(a), Strip(b)));
    } else {
      Whole(Final(t, a, b));
    }
  }

  lemma SplitEquality(x: string, y: string, x': string, y': string)
    requires |x| == |x'|
    ensures x + y == x' + y' <==> x == x' && y == y'
  {
    if x + y == x' + y' {
      assert x == (x + y)[..|x|] == x' && y == (x + y)[|x|..] == y';
    }
  }

  /** Convergence of two concurrent changesets, with exactly the condition it needs. */
  lemma {:induction false} ConvergesExactlyWhenTiesAgree(t: string, a: seq<Op>, b: seq<Op>)
    requires Concurrent(t, a, b)
    ensures Final(t, a, b) == Final(t, b, a) <==> TiesAgree(a, b)
    ensures |Final(t, a, b)| == |Final(t, b, a)|
    decreases Units(a) + Units(b)
  {
    hide Final, GapText, SrcLen, Advance;
    var a', b' := Strip(a), Strip(b);
    FinalGap(t, a, b);
    FinalGap(t, b, a);
    GapLength(a, b);
    GapLength(b, a);
    SplitEquality(GapText(a, b), Final(t, a', b'), GapText(b, a), Final(t, b', a'));
    if a' != [] && b' != [] {
      var n := Min(a'[0].len, b'[0].len);
      UnitsHead(a');
      UnitsHead(b');
      FinalBoth(t, a', b', n);
      FinalBoth(t, b', a', n);
      var kept := if a'[0].Retain? && b'[0].Retain? then t[..n] else "";
      var t', a'', b'' := t[n..], Advance(a', n), Advance(b', n);
      ConvergesExactlyWhenTiesAgree(t', a'', b'');
      SplitEquality(kept, Final(t', a'', b''), kept, Final(t', b'', a''));
    } else {
      DocumentLeft(a');
      DocumentLeft(b');
      FinalEmpty(t);
    }
  }

  lemma FinalEmpty(t: string)
    ensures t == "" ==> Concurrent(t, [], []) && Final(t, [], []) == ""
  {
  }

  // ------------------------------------------------------------ the producers' form meets it

  lemma {:induction false} StripKeepsForm(ops: seq<Op>)
    requires NoAdjacentInserts(ops)
    ensures NoAdjacentInserts(Strip(ops))
    ensures HeadInsert(ops) ==> !HeadInsert(ops[1..])
  {
    if HeadInsert(ops) {
      StripKeepsForm(ops[1..]);
    }
  }

  lemma AdvanceKeepsForm(ops: seq<Op>, n: nat)
    requires Positive(ops) && NoAdjacentInserts(ops) && ops != [] && !HeadInsert(ops) && 0 < n <= Size(ops[0])
    ensures NoAdjacentInserts(Advance(ops, n))
  {
    AdvanceHead(ops, n);
  }

  lemma SingleInsertsMerge(a: seq<Op>, b: seq<Op>)
    requires HeadInsert(a) ==> !HeadInsert(a[1..])
    requires HeadInsert(b) ==> !HeadInsert(b[1..])
    ensures GapText(a, b) == GapText(b, a)
  {
    if HeadInsert(a) && HeadInsert(b) {
      var s, u := a[0].chars, b[0].chars;
      LexTotal(s, u);
      Whole(s);
      Whole(u);
    }
  }

  lemma {:induction false} CanonicalTiesAgree(a: seq<Op>, b: seq<Op>)
    requires Positive(a) && Positive(b) && NoAdjacentInserts(a) && NoAdjacentInserts(b)
    ensures TiesAgree(a, b)
    decreases Units(a) + Units(b)
  {
    hide GapText, Advance;
    StripKeepsForm(a);
    StripKeepsForm(b);
    SingleInsertsMerge(a, b);
    var a', b' := Strip(a), Strip(b);
    if a' != [] && b' != [] {
      var n := Min(a'[0].len, b'[0].len);
      UnitsHead(a');
      UnitsHead(b');
      AdvanceKeepsForm(a', n);
      AdvanceKeepsForm(b', n);
      CanonicalTiesAgree(Advance(a', n), Advance(b', n));
    }
  }

  // ------------------------------------------------------------ statements about changesets

  /** Closure: the rebased changeset passes Validate, reads A's output, and is fully merged. */
  lemma FollowIsCanonical(A: Changeset, B: Changeset)
    requires Valid(A) && Valid(B) && A.oldLen == B.oldLen
    ensures Canonical(Follow(A, B)) && Follow(A, B).oldLen == A.newLen
  {
    var raw := FollowOps(A.ops, B.ops);
    FollowLengths(A.ops, B.ops);
    LengthsNonNegative(raw);
    AddAllMeaning(seq(SrcLen(raw), _ => ' '), [], raw);
  }

  /** Merging as the result grows does not change what the rebased changeset does. */
  lemma FollowMeaning(t: string, A: Changeset, B: Changeset)
    requires Valid(A) && Valid(B) && A.oldLen == B.oldLen == |t|
    ensures Canonical(Follow(A, B)) && Follow(A, B).oldLen == A.newLen == |Run(t, A.ops)|
    ensures Run(Run(t, A.ops), Follow(A, B).ops) == Final(t, A.ops, B.ops)
  {
    FollowIsCanonical(A, B);
    RunLength(t, A.ops);
    FollowLengths(A.ops, B.ops);
    hide Run, AddAll, FollowOps;
    var raw := FollowOps(A.ops, B.ops);
    AddAllMeaning(Run(t, A.ops), [], raw);
    Whole(raw);
  }

  /** The law Follow is for, on all valid changesets: it holds exactly when the ties agree. */
  lemma FollowConvergesExactlyWhenTiesAgree(t: string, A: Changeset, B: Changeset)
    requires Valid(A) && Valid(B) && A.oldLen == B.oldLen == |t|
    ensures Valid(Follow(A, B)) && Follow(A, B).oldLen == |Run(t, A.ops)|
    ensures Valid(Follow(B, A)) && Follow(B, A).oldLen == |Run(t, B.ops)|
    ensures Run(Run(t, A.ops), Follow(A, B).ops) == Run(Run(t, B.ops), Follow(B, A).ops) <==> TiesAgree(A.ops, B.ops)
    ensures Follow(A, B).newLen == Follow(B, A).newLen
  {
    hide Run, Follow, FollowOps, TiesAgree;
    FollowMeaning(t, A, B);
    FollowMeaning(t, B, A);
    ConvergesExactlyWhenTiesAgree(t, A.ops, B.ops);
    RunLength(Run(t, A.ops), Follow(A, B).ops);
    RunLength(Run(t, B.ops), Follow(B, A).ops);
  }

  /** Follow convergence, on everything the repository's producers build. */
  lemma FollowConverges(t: string, A: Changeset, B: Changeset)
    requires Valid(A) && Valid(B) && A.oldLen == B.oldLen == |t|
    requires NoAdjacentInserts(A.ops) && NoAdjacentInserts(B.ops)
    ensures Valid(Follow(A, B)) && Follow(A, B).oldLen == |Run(t, A.ops)|
    ensures Valid(Follow(B, A)) && Follow(B, A).oldLen == |Run(t, B.ops)|
    ensures Run(Run(t, A.ops), Follow(A, B).ops) == Run(Run(t, B.ops), Follow(B, A).ops)
    ensures Follow(A, B).newLen == Follow(B, A).newLen
  {
    hide Run, Follow, FollowOps, TiesAgree;
    CanonicalTiesAgree(A.ops, B.ops);
    FollowConvergesExactlyWhenTiesAgree(t, A, B);
  }

  // ------------------------------------------------------------ rebasing the identity

  predicate AllRetain(ops: seq<Op>) {
    forall i :: 0 <= i < |ops| ==> ops[i].Retain?
  }

  lemma {:induction false} FollowRetains(a: seq<Op>, b: seq<Op>)
    requires Positive(a) && Positive(b) && AllRetain(b)
    ensures AllRetain(FollowOps(a, b))
    decreases Units(a) + Units(b)
  {
    if TakesA(a, b) {
      FollowRetains(a[1..], b);
    } else if OnDocument(a, b) {
      var n := Min(a[0].len, b[0].len);
      UnitsHead(a);
      UnitsHead(b);
      AdvanceHead(b, n);
      FollowRetains(Advance(a, n), Advance(b, n));
    }
  }

  lemma {:induction false} AddRetains(n: nat, ops: seq<Op>)
    requires Positive(ops) && AllRetain(ops)
    ensures SrcLen(ops) >= 0
    ensures AddAll(Identity(n).ops, ops) == Identity(n + SrcLen(ops)).ops
    decreases ops
  {
    LengthsNonNegative(ops);
    Whole(Identity(n).ops);
    hide AddOp, Identity;
    if ops != [] {
      AddRetain(n, ops[0].len);
      AddRetains(n + ops[0].len, ops[1..]);
    }
  }

  lemma AddRetain(n: nat, k: nat)
    requires k > 0
    ensures AddOp(Identity(n).ops, Retain(k)) == Identity(n + k).ops
  {
  }

  /** Doing nothing, rebased past anything, is still doing nothing. */
  lemma FollowIdentity(B: Changeset)
    requires Valid(B)
    ensures B.oldLen >= 0 && B.newLen >= 0
    ensures Follow(B, Identity(B.oldLen)) == Identity(B.newLen)
  {
    LengthsNonNegative(B.ops);
    var I := Identity(B.oldLen);
    FollowRetains(B.ops, I.ops);
    FollowIsCanonical(B, I);
    FollowLengths(B.ops, I.ops);
    AddRetains(0, FollowOps(B.ops, I.ops));
  }

  // ------------------------------------------------------------ where it fails

  /** Two insertions side by side, and one of them alone. */
  function TwoInserts(): (c: Changeset)
    ensures Valid(c) && c.oldLen == 0
  {
    assert [Insert("b"), Insert("a")][1..] == [Insert("a")];
    Changeset(0, 2, [Insert("b"), Insert("a")])
  }

  function OneInsert(): (c: Changeset)
    ensures Canonical(c) && c.oldLen == 0
  {
    Changeset(0, 1, [Insert("b")])
  }

  lemma WalksDiffer()
    ensures Final("", TwoInserts().ops, OneInsert().ops) == "bab"
    ensures Final("", OneInsert().ops, TwoInserts().ops) == "bba"
  {
    hide Final, LexLeq;
    var a, b := TwoInserts().ops, OneInsert().ops;
    var a1: seq<Op> := [Insert("a")];
    assert a[1..] == a1 && b[1..] == [] && a1[1..] == [];
    FinalEmpty("");
    LettersInOrder();
    calc {
      Final("", a, b);
      { FinalTakeA("", a, b); }
      "b" + Final("", a1, b);
      { FinalTakeA("", a1, b); }
      "b" + ("a" + Final("", [], b));
      { FinalTakeB("", [], b); }
      "b" + ("a" + ("b" + Final("", [], [])));
      "bab";
    }
    calc {
      Final("", b, a);
      { FinalTakeA("", b, a); }
      "b" + Final("", [], a);
      { FinalTakeB("", [], a); }
      "b" + ("b" + Final("", [], a1));
      { FinalTakeB("", [], a1); }
      "b" + ("b" + ("a" + Final("", [], [])));
      "bba";
    }
  }

  lemma LettersInOrder()
    ensures LexLeq("b", "b") && LexLeq("a", "b") && !LexLeq("b", "a")
  {
  }

  lemma TheirTexts()
    ensures Run("", TwoInserts().ops) == "ba" && Run("", OneInsert().ops) == "b"
  {
    assert TwoInserts().ops[1..] == [Insert("a")];
  }

  /** Without that form the law can fail: both changesets pass Validate on the empty document. */
  lemma AdjacentInsertsDiverge()
    ensures var A, B := TwoInserts(), OneInsert();
            && !TiesAgree(A.ops, B.ops)
            && Apply("", A) == Some("ba") && Apply("ba", Follow(A, B)) == Some("bab")
            && Apply("", B) == Some("b") && Apply("b", Follow(B, A)) == Some("bba")
  {
    hide Final, Run, TiesAgree, Follow;
    var A, B := TwoInserts(), OneInsert();
    WalksDiffer();
    TheirTexts();
    FollowMeaning("", A, B);
    FollowMeaning("", B, A);
    ValidLengths(Follow(A, B));
    ValidLengths(Follow(B, A));
    ConvergesExactlyWhenTiesAgree("", A.ops, B.ops);
    assert "bab"[1] != "bba"[1];
  }
}
