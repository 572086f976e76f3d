/** A ladder that closes although ties on the way disagree. */
module LadderExample {
  import opened Changesets
  import opened OpLists
  import opened Follows
  import opened Convergence
  import opened Histories

  /** Two insertions that tie differently with "b" either way round, and a deletion of both. */
  function Writes(): (s: Changeset)
    ensures Positive(s.ops)
  {
    Changeset(0, 3, [Insert("b"), Insert("ab")])
  }

  function Clears(): (s: Changeset)
    ensures Positive(s.ops)
  {
    Changeset(3, 0, [Delete(3)])
  }

  lemma LettersCompared()
    ensures LexLeq("b", "b") && LexLeq("ab", "b") && !LexLeq("b", "ab")
  {
    assert "ab"[0] == 'a' && "b"[0] == 'b';
  }

  lemma MergedThree(x: Op, y: Op, z: Op)
    ensures AddAll([], [x, y, z]) == AddOp(AddOp([x], y), z)
  {
    hide AddOp;
    var ops := [x, y, z];
    assert ops[1..] == [y, z] && [y, z][1..] == [z] && [z][1..] == [];
    AddFirst(x);
    var last := AddOp(AddOp([x], y), z);
    assert AddAll(last, []) == last;
    assert AddAll(AddOp([x], y), [z]) == last;
    assert AddAll([x], [y, z]) == last;
  }

  lemma AddFirst(x: Op)
    ensures AddOp([], x) == [x]
  {
  }

  lemma WalkPastWrites()
    ensures FollowOps(Writes().ops, OneInsert().ops) == [Retain(1), Retain(2), Insert("b")]
  {
    hide LexLeq;
    LettersCompared();
    var a, b: seq<Op> := Writes().ops, [Insert("b")];
    var a1: seq<Op> := [Insert("ab")];
    assert a[1..] == a1 && a1[1..] == [] && b[1..] == [];
    assert FollowOps([], b) == [Insert("b")] + FollowOps([], []);
    assert FollowOps(a1, b) == [Retain(2)] + [Insert("b")];
  }

  lemma PastWrites()
    ensures Follow(Writes(), OneInsert()) == Changeset(3, 4, [Retain(3), Insert("b")])
  {
    WalkPastWrites();
    MergedThree(Retain(1), Retain(2), Insert("b"));
    hide FollowOps, AddAll;
    assert AddOp([Retain(1)], Retain(2)) == [Retain(3)];
    assert [Retain(3), Insert("b")][1..] == [Insert("b")];
  }

  lemma WalkPastOneInsert()
    ensures FollowOps(OneInsert().ops, Writes().ops) == [Retain(1), Insert("b"), Insert("ab")]
  {
    hide LexLeq;
    LettersCompared();
    var a, b: seq<Op> := [Insert("b")], Writes().ops;
    var b1: seq<Op> := [Insert("ab")];
    assert a[1..] == [] && b[1..] == b1 && b1[1..] == [];
    assert FollowOps([], b1) == [Insert("ab")] + FollowOps([], []);
    assert FollowOps([], b) == [Insert("b")] + [Insert("ab")];
  }

  lemma PastOneInsert()
    ensures Follow(OneInsert(), Writes()) == Changeset(1, 4, [Retain(1), Insert("bab")])
  {
    WalkPastOneInsert();
    MergedThree(Retain(1), Insert("b"), Insert("ab"));
    hide FollowOps, AddAll;
    assert "b" + "ab" == "bab";
    assert AddOp([Retain(1), Insert("b")], Insert("ab")) == [Retain(1), Insert("bab")];
    assert [Retain(1), Insert("bab")][1..] == [Insert("bab")];
  }

  lemma PastClears()
    ensures Follow(Clears(), Changeset(3, 4, [Retain(3), Insert("b")])) == OneInsert()
  {
    var a, b: seq<Op> := [Delete(3)], [Retain(3), Insert("b")];
    assert a[1..] == [] && b[1..] == [Insert("b")] && b[1..][1..] == [];
    assert Advance(a, 3) == [] && Advance(b, 3) == [Insert("b")];
    assert FollowOps([], [Insert("b")]) == [Insert("b")] + FollowOps([], []);
    assert FollowOps(a, b) == [Insert("b")];
  }

  lemma ClearsAfter()
    ensures Follow(Changeset(3, 4, [Retain(3), Insert("b")]), Clears()) == Changeset(4, 1, [Delete(3), Retain(1)])
  {
    var a, b: seq<Op> := [Delete(3)], [Retain(3), Insert("b")];
    assert a[1..] == [] && b[1..] == [Insert("b")] && b[1..][1..] == [];
    assert Advance(a, 3) == [] && Advance(b, 3) == [Insert("b")];
    assert FollowOps([Insert("b")], []) == [Retain(1)] + FollowOps([], []);
    assert FollowOps(b, a) == [Delete(3), Retain(1)];
    assert [Delete(3), Retain(1)][1..] == [Retain(1)];
    assert AddAll([Delete(3)], [Retain(1)]) == [Delete(3), Retain(1)];
  }

  /** Catch-up and ladder across two revisions, spelt out. */
  lemma TwoCaughtUp(c: Changeset, r: Changeset, s: Changeset)
    requires Positive(c.ops) && Positive(r.ops) && Positive(s.ops)
    ensures CatchUp(c, [r, s]) == Follow(s, Follow(r, c))
  {
    hide Follow, CatchUp;
    assert [r, s] == [r] + [s];
    CatchUpConcat(c, [r], [s]);
    CatchUpOne(c, r);
    CatchUpOne(Follow(r, c), s);
  }

  lemma TwoTransformed(c: Changeset, r: Changeset, s: Changeset)
    requires Positive(c.ops) && Positive(r.ops) && Positive(s.ops)
    ensures Transformed(c, [r, s]) == [Follow(c, r), Follow(Follow(r, c), s)]
  {
    hide Follow;
    assert [r, s][1..] == [s];
    TransformedOne(Follow(r, c), s);
  }

  lemma FirstTie(c: Changeset, cs: seq<Changeset>)
    requires Positive(c.ops) && AllPositive(cs) && cs != [] && TiesAlong(c, cs)
    ensures TiesAgree(cs[0].ops, c.ops)
  {
  }

  lemma TwoApplied(t: string, r: Changeset, s: Changeset)
    requires Valid(r) && r.oldLen == |t| && Valid(s) && s.oldLen == |Run(t, r.ops)|
    ensures Chained(t, [r, s]) && TextAfter(t, [r, s]) == Run(Run(t, r.ops), s.ops)
  {
    hide Run, Chained, TextAfter;
    assert [r, s] == [r] + [s];
    ChainConcat(t, [r], [s]);
    ChainOne(t, r);
    ChainOne(Run(t, r.ops), s);
  }

  /** Over several revisions ties need not agree: a later one may delete where the orders differ. */
  lemma LadderMayCloseAllTheSame()
    ensures var c, cs := OneInsert(), [Writes(), Clears()];
            && Chained("", cs) && AllPositive(cs) && !TiesAlong(c, cs)
            && Valid(CatchUp(c, cs)) && CatchUp(c, cs).oldLen == |TextAfter("", cs)|
            && Chained(Run("", c.ops), Transformed(c, cs))
            && Run(TextAfter("", cs), CatchUp(c, cs).ops) == "b"
            && TextAfter(Run("", c.ops), Transformed(c, cs)) == "b"
  {
    hide Follow, Run, TiesAgree, CatchUp, Transformed, TextAfter, Chained, TiesAlong, SrcLen;
    var c, r, s := OneInsert(), Writes(), Clears();
    PastWrites();
    PastOneInsert();
    PastClears();
    ClearsAfter();
    WritesRun();
    ReplyRuns();
    TheirLengths();
    TwoCaughtUp(c, r, s);
    TwoTransformed(c, r, s);
    if TiesAlong(c, [r, s]) {
      FirstTie(c, [r, s]);
    }
    TwoApplied("", r, s);
    TwoApplied("b", Follow(c, r), Follow(Follow(r, c), s));
    FollowConvergesExactlyWhenTiesAgree("", r, c);
    assert "babb"[1] != "bbab"[1];
  }

  lemma TheirLengths()
    ensures Valid(Writes()) && Valid(Clears())
    ensures Valid(Changeset(1, 4, [Retain(1), Insert("bab")])) && Valid(Changeset(4, 1, [Delete(3), Retain(1)]))
  {
    assert [Insert("b"), Insert("ab")][1..] == [Insert("ab")];
    assert [Retain(1), Insert("bab")][1..] == [Insert("bab")];
    assert [Delete(3), Retain(1)][1..] == [Retain(1)];
  }

  lemma WritesRun()
    ensures NonNegative(Writes().ops) && SrcLen(Writes().ops) == 0 && Run("", Writes().ops) == "bab"
    ensures Run("", OneInsert().ops) == "b"
    ensures SrcLen([Delete(3)]) == 3 && Run("bab", [Delete(3)]) == ""
    ensures SrcLen([Retain(3), Insert("b")]) == 3 && Run("bab", [Retain(3), Insert("b")]) == "babb"
  {
    assert [Insert("b"), Insert("ab")][1..] == [Insert("ab")] && [Retain(3), Insert("b")][1..] == [Insert("b")];
    assert "bab"[..3] == "bab" && "bab"[3..] == "" && "b" + "ab" == "bab" && "bab" + "b" == "babb";
  }

  lemma ReplyRuns()
    ensures SrcLen([Retain(1), Insert("bab")]) == 1 && Run("b", [Retain(1), Insert("bab")]) == "bbab"
    ensures SrcLen([Delete(3), Retain(1)]) == 4 && Run("bbab", [Delete(3), Retain(1)]) == "b"
  {
    assert [Retain(1), Insert("bab")][1..] == [Insert("bab")] && [Delete(3), Retain(1)][1..] == [Retain(1)];
    assert "bbab"[3..] == "b" && "b"[..1] == "b" && "b"[1..] == "" && "b" + "bab" == "bbab";
  }
}
