/**
 * Sequences of changesets: replaying them, rebasing one changeset across them, and the
 * ladder of convergence squares that relates the two.
 */
module Histories {
  import opened Sequences
  import opened Changesets
  import opened OpLists
  import opened Follows
  import opened Convergence

  predicate AllPositive(cs: seq<Changeset>) {
    forall i :: 0 <= i < |cs| ==> Positive(cs[i].ops)
  }

  /** No changeset of the list has adjacent insertions. */
  predicate AllSeparated(cs: seq<Changeset>) {
    forall i :: 0 <= i < |cs| ==> NoAdjacentInserts(cs[i].ops)
  }

  /** Each changeset is valid and made for the text the ones before it produce. */
  ghost predicate Chained(t: string, cs: seq<Changeset>)
    decreases cs
  {
    cs == [] || (Valid(cs[0]) && cs[0].oldLen == |t| && Chained(Run(t, cs[0].ops), cs[1..]))
  }

  ghost function TextAfter(t: string, cs: seq<Changeset>): (r: string)
    requires Chained(t, cs)
    decreases cs
  {
    if cs == [] then t else TextAfter(Run(t, cs[0].ops), cs[1..])
  }

  lemma {:induction false} ChainConcat(t: string, x: seq<Changeset>, y: seq<Changeset>)
    ensures Chained(t, x + y) <==> Chained(t, x) && Chained(TextAfter(t, x), y)
    ensures Chained(t, x + y) ==> TextAfter(t, x + y) == TextAfter(TextAfter(t, x), y)
    decreases x
  {
    hide Run;
    if x == [] {
      Whole(y);
    } else {
      SliceConcat(x, y, 1);
      if Valid(x[0]) && x[0].oldLen == |t| {
        ChainConcat(Run(t, x[0].ops), x[1..], y);
      }
    }
  }

  lemma ChainSplit(t: string, cs: seq<Changeset>, k: nat)
    requires Chained(t, cs) && k <= |cs|
    ensures Chained(t, cs[..k]) && Chained(TextAfter(t, cs[..k]), cs[k..])
    ensures TextAfter(TextAfter(t, cs[..k]), cs[k..]) == TextAfter(t, cs)
  {
    SplitAt(cs, k);
    ChainConcat(t, cs[..k], cs[k..]);
  }

  lemma ChainOne(t: string, c: Changeset)
    ensures Chained(t, [c]) <==> Valid(c) && c.oldLen == |t|
    ensures Chained(t, [c]) ==> TextAfter(t, [c]) == Run(t, c.ops)
  {
  }

  lemma {:induction false} ChainPositive(t: string, cs: seq<Changeset>)
    requires Chained(t, cs)
    ensures AllPositive(cs)
    decreases cs
  {
    hide Run;
    if cs != [] {
      ChainPositive(Run(t, cs[0].ops), cs[1..]);
    }
  }

  /** The server's catch-up: rebase `c` across each logged changeset in turn. */
  function CatchUp(c: Changeset, cs: seq<Changeset>): (r: Changeset)
    requires Positive(c.ops) && AllPositive(cs)
    ensures Positive(r.ops)
    decreases cs
  {
    if cs == [] then c else CatchUp(Follow(cs[0], c), cs[1..])
  }

  lemma {:induction false} CatchUpConcat(c: Changeset, x: seq<Changeset>, y: seq<Changeset>)
    requires Positive(c.ops) && AllPositive(x) && AllPositive(y)
    ensures AllPositive(x + y)
    ensures CatchUp(c, x + y) == CatchUp(CatchUp(c, x), y)
    decreases x
  {
    hide Follow;
    if x == [] {
      Whole(y);
    } else {
      SliceConcat(x, y, 1);
      CatchUpConcat(Follow(x[0], c), x[1..], y);
    }
  }

  lemma CatchUpSnoc(c: Changeset, cs: seq<Changeset>, i: nat, j: nat)
    requires Positive(c.ops) && AllPositive(cs) && i <= j < |cs|
    ensures CatchUp(c, cs[i..j + 1]) == Follow(cs[j], CatchUp(c, cs[i..j]))
  {
    hide Follow;
    CatchUpConcat(c, cs[i..j], [cs[j]]);
    SliceSnoc(cs, i, j);
    CatchUpOne(CatchUp(c, cs[i..j]), cs[j]);
  }

  lemma CatchUpOne(c: Changeset, d: Changeset)
    requires Positive(c.ops) && Positive(d.ops)
    ensures CatchUp(c, [d]) == Follow(d, c)
  {
  }

  lemma CatchUpFirst(c: Changeset, cs: seq<Changeset>, i: nat, j: nat)
    requires Positive(c.ops) && AllPositive(cs) && i < j <= |cs|
    ensures Positive(Follow(cs[i], c).ops)
    ensures CatchUp(c, cs[i..j]) == CatchUp(Follow(cs[i], c), cs[i + 1..j])
  {
    assert cs[i..j][1..] == cs[i + 1..j];
  }

  /** Catch-up of a fitting changeset fits the head. */
  lemma {:induction false} CatchUpFits(t: string, c: Changeset, cs: seq<Changeset>)
    requires Chained(t, cs) && Valid(c) && c.oldLen == |t|
    ensures AllPositive(cs) && Valid(CatchUp(c, cs)) && CatchUp(c, cs).oldLen == |TextAfter(t, cs)|
    ensures Merged(c.ops) || cs != [] ==> Merged(CatchUp(c, cs).ops)
    decreases cs
  {
    hide Run, Follow;
    ChainPositive(t, cs);
    if cs != [] {
      RunLength(t, cs[0].ops);
      FollowIsCanonical(cs[0], c);
      CatchUpFits(Run(t, cs[0].ops), Follow(cs[0], c), cs[1..]);
    }
  }

  /** Catch-up, whatever it starts from, yields a changeset whose declared result length is true. */
  lemma {:induction false} CatchUpDeclares(c: Changeset, cs: seq<Changeset>)
    requires Positive(c.ops) && AllPositive(cs) && DstLen(c.ops) == c.newLen
    ensures DstLen(CatchUp(c, cs).ops) == CatchUp(c, cs).newLen
    decreases cs
  {
    if cs != [] {
      CatchUpDeclares(Follow(cs[0], c), cs[1..]);
    }
  }

  /** The log as someone who already applied `c` would have to apply it. */
  function Transformed(c: Changeset, cs: seq<Changeset>): (r: seq<Changeset>)
    requires Positive(c.ops) && AllPositive(cs)
    decreases cs
  {
    if cs == [] then [] else [Follow(c, cs[0])] + Transformed(Follow(cs[0], c), cs[1..])
  }

  /** Whether a list is chained depends on the text's length alone. */
  lemma {:induction false} ChainedByLength(t: string, t': string, cs: seq<Changeset>)
    requires Chained(t, cs) && |t| == |t'|
    ensures Chained(t', cs)
    decreases cs
  {
    hide Run;
    if cs != [] {
      RunLength(t, cs[0].ops);
      RunLength(t', cs[0].ops);
      ChainedByLength(Run(t, cs[0].ops), Run(t', cs[0].ops), cs[1..]);
    }
  }

  /** The transformed log can be applied after `c`, whatever the ties. */
  lemma {:induction false} TransformedFits(t: string, c: Changeset, cs: seq<Changeset>)
    requires Chained(t, cs) && Valid(c) && c.oldLen == |t| && AllPositive(cs)
    ensures Chained(Run(t, c.ops), Transformed(c, cs))
    decreases cs
  {
    hide Run, Follow;
    if cs != [] {
      var s, rest := cs[0], cs[1..];
      FollowConvergesExactlyWhenTiesAgree(t, s, c);
      TransformedFits(Run(t, s.ops), Follow(s, c), rest);
      RunLength(Run(t, s.ops), Follow(s, c).ops);
      RunLength(Run(t, c.ops), Follow(c, s).ops);
      ChainedByLength(Run(Run(t, s.ops), Follow(s, c).ops), Run(Run(t, c.ops), Follow(c, s).ops),
        Transformed(Follow(s, c), rest));
      TailOfCons(Follow(c, s), Transformed(Follow(s, c), rest));
    }
  }

  /** At every rung of the ladder the tied insertions merge alike both ways. */
  predicate TiesAlong(c: Changeset, cs: seq<Changeset>)
    requires Positive(c.ops) && AllPositive(cs)
    decreases cs
  {
    cs == [] || (TiesAgree(cs[0].ops, c.ops) && TiesAlong(Follow(cs[0], c), cs[1..]))
  }

  /** Without adjacent insertions they always do. */
  lemma {:induction false} SeparatedTiesAlong(c: Changeset, cs: seq<Changeset>)
    requires Positive(c.ops) && AllPositive(cs) && NoAdjacentInserts(c.ops) && AllSeparated(cs)
    ensures TiesAlong(c, cs)
    decreases cs
  {
    if cs != [] {
      CanonicalTiesAgree(cs[0].ops, c.ops);
      FollowSeparated(cs[0], c);
      hide TiesAgree, Follow;
      SeparatedTiesAlong(Follow(cs[0], c), cs[1..]);
    }
  }

  lemma FollowSeparated(A: Changeset, B: Changeset)
    requires Positive(A.ops) && Positive(B.ops)
    ensures NoAdjacentInserts(Follow(A, B).ops)
  {
    assert Merged(Follow(A, B).ops);
  }

  lemma {:induction false} CatchUpSeparated(c: Changeset, cs: seq<Changeset>)
    requires Positive(c.ops) && AllPositive(cs) && NoAdjacentInserts(c.ops)
    ensures NoAdjacentInserts(CatchUp(c, cs).ops)
    decreases cs
  {
    hide Follow;
    if cs != [] {
      FollowSeparated(cs[0], c);
      CatchUpSeparated(Follow(cs[0], c), cs[1..]);
    }
  }

  /** The catch-up ladder: head then C' is base then C then the transformed log. */
  lemma {:induction false} CatchUpLadder(t: string, c: Changeset, cs: seq<Changeset>)
    requires Chained(t, cs) && Valid(c) && c.oldLen == |t| && AllPositive(cs) && TiesAlong(c, cs)
    ensures Valid(CatchUp(c, cs)) && CatchUp(c, cs).oldLen == |TextAfter(t, cs)|
    ensures Chained(Run(t, c.ops), Transformed(c, cs))
    ensures Run(TextAfter(t, cs), CatchUp(c, cs).ops) == TextAfter(Run(t, c.ops), Transformed(c, cs))
    decreases cs
  {
    hide Run, Follow, TiesAgree;
    CatchUpFits(t, c, cs);
    TransformedFits(t, c, cs);
    if cs != [] {
      var s, rest := cs[0], cs[1..];
      FollowConvergesExactlyWhenTiesAgree(t, s, c);
      CatchUpLadder(Run(t, s.ops), Follow(s, c), rest);
      TailOfCons(Follow(c, s), Transformed(Follow(s, c), rest));
    }
  }

  /** Across a single revision the condition is exact: the ladder closes only if the ties agree. */
  lemma OneRungExactlyWhenTiesAgree(t: string, c: Changeset, s: Changeset)
    requires Valid(s) && s.oldLen == |t| && Valid(c) && c.oldLen == |t|
    ensures Chained(t, [s]) && Valid(CatchUp(c, [s])) && CatchUp(c, [s]).oldLen == |TextAfter(t, [s])|
    ensures Chained(Run(t, c.ops), Transformed(c, [s]))
    ensures Run(TextAfter(t, [s]), CatchUp(c, [s]).ops) == TextAfter(Run(t, c.ops), Transformed(c, [s]))
            <==> TiesAlong(c, [s])
  {
    hide Run, TiesAgree, Follow;
    ChainOne(t, s);
    CatchUpFits(t, c, [s]);
    CatchUpOne(c, s);
    FollowConvergesExactlyWhenTiesAgree(t, s, c);
    TransformedOne(c, s);
    ChainOne(Run(t, c.ops), Follow(c, s));
    TailOfCons(s, []);
  }

  lemma TransformedOne(c: Changeset, s: Changeset)
    requires Positive(c.ops) && Positive(s.ops)
    ensures Transformed(c, [s]) == [Follow(c, s)]
  {
    TailOfCons(s, []);
  }
}
