/**
 * Operations, changesets and what it means to apply one.
 * Text is a sequence of abstract units; lengths count those units.
 */
module Changesets {
  import opened Options
  import opened Sequences

  datatype Op = Retain(len: int) | Insert(chars: string) | Delete(len: int)

  datatype Changeset = Changeset(oldLen: int, newLen: int, ops: seq<Op>)

  /** The number of units an operation covers: source units, or inserted ones. */
  function Size(op: Op): int {
    match op
    case Insert(s) => |s|
    case Retain(n) => n
    case Delete(n) => n
  }

  /** The source units one operation covers, and the result units it contributes. */
  function Src(op: Op): int {
    if op.Insert? then 0 else Size(op)
  }

  function Dst(op: Op): int {
    if op.Delete? then 0 else Size(op)
  }

  function SrcLen(ops: seq<Op>): int {
    if ops == [] then 0 else Src(ops[0]) + SrcLen(ops[1..])
  }

  function DstLen(ops: seq<Op>): int {
    if ops == [] then 0 else Dst(ops[0]) + DstLen(ops[1..])
  }

  predicate Positive(ops: seq<Op>) {
    forall i :: 0 <= i < |ops| ==> Size(ops[i]) > 0
  }

  predicate NonNegative(ops: seq<Op>) {
    forall i :: 0 <= i < |ops| ==> Size(ops[i]) >= 0
  }

  /** What Validate accepts. */
  predicate Valid(c: Changeset) {
    Positive(c.ops) && SrcLen(c.ops) == c.oldLen && DstLen(c.ops) == c.newLen
  }

  predicate SameType(x: Op, y: Op) {
    x.Retain? == y.Retain? && x.Insert? == y.Insert?
  }

  /** No two neighbours of one type: the form every producer builds. */
  predicate Merged(ops: seq<Op>) {
    forall i :: 0 <= i < |ops| - 1 ==> !SameType(ops[i], ops[i + 1])
  }

  /** No two neighbouring insertions. */
  predicate NoAdjacentInserts(ops: seq<Op>) {
    forall i :: 0 <= i < |ops| - 1 ==> !(ops[i].Insert? && ops[i + 1].Insert?)
  }

  /** A valid changeset in the producers' form. */
  predicate Canonical(c: Changeset) {
    Valid(c) && Merged(c.ops)
  }

  lemma {:induction false} LengthsNonNegative(ops: seq<Op>)
    requires NonNegative(ops)
    ensures SrcLen(ops) >= 0 && DstLen(ops) >= 0
  {
    if ops != [] {
      LengthsNonNegative(ops[1..]);
    }
  }

  lemma ValidLengths(c: Changeset)
    requires Valid(c)
    ensures c.oldLen >= 0 && c.newLen >= 0
  {
    LengthsNonNegative(c.ops);
  }

  lemma {:induction false} LengthsConcat(x: seq<Op>, y: seq<Op>)
    ensures SrcLen(x + y) == SrcLen(x) + SrcLen(y)
    ensures DstLen(x + y) == DstLen(x) + DstLen(y)
  {
    if x == [] {
      assert x + y == y;
    } else {
      LengthsConcat(x[1..], y);
      assert (x + y)[1..] == x[1..] + y;
    }
  }

  /** The text one operation contributes, given the source units it covers. */
  function Piece(t: string, op: Op): (r: string) {
    match op
    case Retain(_) => t
    case Insert(s) => s
    case Delete(_) => ""
  }

  /** The meaning of an operation list: the text it turns `text` into. */
  function Run(text: string, ops: seq<Op>): (r: string)
    requires NonNegative(ops) && SrcLen(ops) == |text|
    decreases ops
  {
    if ops == [] then ""
    else
      LengthsNonNegative(ops[1..]);
      var n := Src(ops[0]);
      Piece(text[..n], ops[0]) + Run(text[n..], ops[1..])
  }

  lemma {:induction false} RunLength(text: string, ops: seq<Op>)
    requires NonNegative(ops) && SrcLen(ops) == |text|
    ensures |Run(text, ops)| == DstLen(ops)
    decreases ops
  {
    if ops != [] {
      LengthsNonNegative(ops[1..]);
      RunLength(text[Src(ops[0])..], ops[1..]);
    }
  }

  lemma RunCons(t: string, u: string, op: Op, ops: seq<Op>)
    requires NonNegative(ops) && Size(op) >= 0
    requires Src(op) == |t| && SrcLen(ops) == |u|
    ensures NonNegative([op] + ops) && SrcLen([op] + ops) == |t + u|
    ensures Run(t + u, [op] + ops) == Piece(t, op) + Run(u, ops)
  {
    assert ([op] + ops)[1..] == ops;
    assert (t + u)[|t|..] == u && (t + u)[..|t|] == t;
  }

  /** Running a concatenation is running both halves on the two parts of the source. */
  lemma {:induction false} RunConcat(t: string, u: string, x: seq<Op>, y: seq<Op>)
    requires NonNegative(x) && NonNegative(y) && SrcLen(x) == |t| && SrcLen(y) == |u|
    ensures NonNegative(x + y) && SrcLen(x + y) == |t + u|
    ensures Run(t + u, x + y) == Run(t, x) + Run(u, y)
    decreases x
  {
    LengthsConcat(x, y);
    if x == [] {
      assert x + y == y && t + u == u;
    } else {
      var n := Src(x[0]);
      LengthsNonNegative(x[1..]);
      RunConcat(t[n..], u, x[1..], y);
      SliceConcat(x, y, 1);
      SliceConcat(t, u, n);
      Assoc(Piece(t[..n], x[0]), Run(t[n..], x[1..]), Run(u, y));
    }
  }

  /** Applying a changeset; None where the source's length checks fail or reserving the result panics. */
  function Apply(text: string, c: Changeset): (r: Option<string>)
    requires NonNegative(c.ops)
    ensures r.Some? <==> c.oldLen == |text| == SrcLen(c.ops) && c.newLen >= 0
  {
    if c.oldLen == |text| && SrcLen(c.ops) == |text| && c.newLen >= 0 then Some(Run(text, c.ops)) else None
  }

  lemma RunHead(t: string, ops: seq<Op>)
    requires NonNegative(ops) && ops != [] && SrcLen(ops) == |t|
    ensures 0 <= Src(ops[0]) <= |t| && NonNegative(ops[1..]) && SrcLen(ops[1..]) == |t| - Src(ops[0])
    ensures Run(t, ops) == Piece(t[..Src(ops[0])], ops[0]) + Run(t[Src(ops[0])..], ops[1..])
  {
    LengthsNonNegative(ops[1..]);
  }

  /**
   * The source's pass over the operations, on any lengths, from a read position. None where it
   * yields no text: it reports an error, or slices outside the text and panics.
   */
  function Walk(text: string, ops: seq<Op>, pos: int): (r: Option<string>)
    decreases ops
  {
    if ops == [] then (if pos == |text| then Some("") else None)
    else match ops[0]
      case Insert(s) => Prepend(s, Walk(text, ops[1..], pos))
      case Retain(n) =>
        if pos + n > |text| || pos < 0 || n < 0 then None
        else Prepend(text[pos..pos + n], Walk(text, ops[1..], pos + n))
      case Delete(n) => if pos + n > |text| then None else Walk(text, ops[1..], pos + n)
  }

  function Prepend(s: string, r: Option<string>): Option<string> {
    if r.Some? then Some(s + r.value) else None
  }

  lemma PrependTwice(s: string, u: string, r: Option<string>)
    ensures Prepend(s + u, r) == Prepend(s, Prepend(u, r))
  {
    if r.Some? {
      Assoc(s, u, r.value);
    }
  }

  /** Without negative lengths the pass yields a text exactly when the operations fit what is left. */
  lemma {:induction false} WalkIsRun(text: string, ops: seq<Op>, pos: nat)
    requires NonNegative(ops) && pos <= |text|
    ensures Walk(text, ops, pos) == if SrcLen(ops) == |text| - pos then Some(Run(text[pos..], ops)) else None
    decreases ops
  {
    if ops != [] {
      LengthsNonNegative(ops[1..]);
      var n := Src(ops[0]);
      if pos + n <= |text| {
        WalkIsRun(text, ops[1..], pos + n);
        if SrcLen(ops) == |text| - pos {
          RunHead(text[pos..], ops);
          DropDrop(text, pos, n);
          hide Run, SrcLen;
          Whole(Run(text[pos + n..], ops[1..]));
        }
      }
    }
  }

  /** ApplyChangeset: one pass over the operations with a read position in the source. */
  method ApplyChangeset(text: string, c: Changeset) returns (r: Option<string>)
    ensures r == if c.oldLen == |text| && c.newLen >= 0 then Walk(text, c.ops, 0) else None
    ensures NonNegative(c.ops) ==> r == Apply(text, c)
  {
    hide Run, SrcLen, NonNegative, Walk;
    if c.oldLen != |text| || c.newLen < 0 {
      return None;
    }
    if NonNegative(c.ops) {
      WalkIsRun(text, c.ops, 0);
      Whole(text);
    }
    var result := "";
    var srcPos := 0;
    Whole(c.ops);
    PrependNothing(Walk(text, c.ops, 0));
    for i := 0 to |c.ops|
      invariant Walk(text, c.ops, 0) == Prepend(result, Walk(text, c.ops[i..], srcPos))
    {
      WalkStep(text, c.ops, i, srcPos, result);
      match c.ops[i] {
        case Retain(n) =>
          if srcPos + n > |text| || srcPos < 0 || n < 0 {
            return None;
          }
          result := result + text[srcPos..srcPos + n];
          srcPos := srcPos + n;
        case Insert(s) =>
          result := result + s;
        case Delete(n) =>
          if srcPos + n > |text| {
            return None;
          }
          srcPos := srcPos + n;
      }
    }
    WalkEnds(text, c.ops, srcPos, result);
    if srcPos != |text| {
      return None;
    }
    return Some(result);
  }

  /** Validate keeps out what the pass itself lets through: a negative Delete walks back. */
  lemma NegativeDeleteWalksBack()
    ensures var c := Changeset(1, 1, [Delete(1), Delete(-1), Retain(1)]);
            !Valid(c) && Walk("a", c.ops, 0) == Some("a")
  {
    var ops: seq<Op> := [Delete(1), Delete(-1), Retain(1)];
    assert Size(ops[1]) == -1;
    assert ops[1..] == [Delete(-1), Retain(1)] && ops[1..][1..] == [Retain(1)] && ops[1..][1..][1..] == [];
    assert Walk("a", [], 1) == Some("");
    assert "a"[0..1] + "" == "a";
    assert Walk("a", [Retain(1)], 0) == Some("a");
    assert Walk("a", ops[1..], 1) == Some("a");
  }

  lemma PrependNothing(r: Option<string>)
    ensures Prepend("", r) == r
  {
    if r.Some? {
      Whole(r.value);
    }
  }

  lemma WalkStep(text: string, ops: seq<Op>, i: nat, pos: int, result: string)
    requires i < |ops|
    ensures Prepend(result, Walk(text, ops[i..], pos)) ==
            match ops[i]
            case Insert(s) => Prepend(result + s, Walk(text, ops[i + 1..], pos))
            case Retain(n) => (if pos + n > |text| || pos < 0 || n < 0 then None
                               else Prepend(result + text[pos..pos + n], Walk(text, ops[i + 1..], pos + n)))
            case Delete(n) => (if pos + n > |text| then None else Prepend(result, Walk(text, ops[i + 1..], pos + n)))
  {
    DropDrop(ops, i, 1);
    var op := ops[i];
    if op.Insert? {
      PrependTwice(result, op.chars, Walk(text, ops[i + 1..], pos));
    } else if op.Retain? && !(pos + op.len > |text| || pos < 0 || op.len < 0) {
      PrependTwice(result, text[pos..pos + op.len], Walk(text, ops[i + 1..], pos + op.len));
    }
  }

  lemma WalkEnds(text: string, ops: seq<Op>, pos: int, result: string)
    ensures Prepend(result, Walk(text, ops[|ops|..], pos)) == if pos == |text| then Some(result) else None
  {
    Whole(result);
  }

  /** Validate: accumulates both lengths and stops at the first non-positive operation. */
  method Validate(c: Changeset) returns (ok: bool)
    ensures ok <==> Valid(c)
  {
    var consumed, produced := 0, 0;
    for i := 0 to |c.ops|
      invariant Positive(c.ops[..i])
      invariant consumed == SrcLen(c.ops[..i]) && produced == DstLen(c.ops[..i])
    {
      var op := c.ops[i];
      if Size(op) <= 0 {
        return false;
      }
      assert c.ops[..i + 1] == c.ops[..i] + [op];
      LengthsConcat(c.ops[..i], [op]);
      consumed := consumed + if op.Insert? then 0 else op.len;
      produced := produced + match op { case Retain(n) => n case Insert(s) => |s| case Delete(_) => 0 };
    }
    assert c.ops[..|c.ops|] == c.ops;
    return consumed == c.oldLen && produced == c.newLen;
  }

  function Identity(n: nat): (c: Changeset)
    ensures Canonical(c) && c.oldLen == c.newLen == n
  {
    if n == 0 then Changeset(0, 0, []) else Changeset(n, n, [Retain(n)])
  }

  predicate IsIdentity(c: Changeset) {
    && c.oldLen == c.newLen
    && ((c.oldLen == 0 && c.ops == []) || (|c.ops| == 1 && c.ops[0] == Retain(c.oldLen)))
  }

  function TextToChangeset(text: string): (c: Changeset)
    ensures Canonical(c) && c.oldLen == 0 && c.newLen == |text|
    ensures Run("", c.ops) == text
  {
    if text == "" then Changeset(0, 0, []) else Changeset(0, |text|, [Insert(text)])
  }

  /** Among valid changesets, IsIdentity picks out exactly Identity, and that one changes nothing. */
  lemma IdentityIsIdentity(c: Changeset, text: string)
    requires Valid(c) && c.oldLen == |text|
    ensures IsIdentity(c) <==> c == Identity(|text|)
    ensures IsIdentity(c) ==> Run(text, c.ops) == text
  {
    if IsIdentity(c) && c.ops != [] {
      assert c.ops == [Retain(c.oldLen)];
      assert Run(text, [Retain(|text|)]) == text + Run("", []);
    }
  }
}
