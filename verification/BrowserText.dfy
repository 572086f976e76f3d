/** The browser's applyChangeset: it checks the declared length and nothing else, and slices clamp. */
module BrowserText {
  import opened Numbers
  import opened Options
  import opened Sequences
  import opened Changesets

  /** What `slice` yields from non-negative bounds. */
  function Slice(text: string, from: nat, to: nat): (r: string)
    requires from <= to
  {
    text[Min(from, |text|)..Min(to, |text|)]
  }

  function Shown(text: string, ops: seq<Op>, pos: nat): (r: string)
    requires NonNegative(ops)
    decreases ops
  {
    if ops == [] then ""
    else
      var op, rest := ops[0], ops[1..];
      assert Size(op) >= 0;
      match op
      case Insert(s) => s + Shown(text, rest, pos)
      case Retain(n) => Slice(text, pos, pos + n) + Shown(text, rest, pos + n)
      case Delete(n) => Shown(text, rest, pos + n)
  }

  /** Operations that cover the rest of the text are shown as what they mean. */
  lemma {:induction false} ShownFrom(text: string, ops: seq<Op>, pos: nat)
    requires NonNegative(ops) && pos <= |text| && SrcLen(ops) == |text| - pos
    ensures Shown(text, ops, pos) == Run(text[pos..], ops)
    decreases ops
  {
    if ops != [] {
      LengthsNonNegative(ops[1..]);
      var n := Src(ops[0]);
      ShownFrom(text, ops[1..], pos + n);
      RunHead(text[pos..], ops);
      DropDrop(text, pos, n);
      hide Run, SrcLen;
      Whole(Run(text[pos + n..], ops[1..]));
    }
  }

  lemma ShownIsRun(text: string, ops: seq<Op>)
    requires NonNegative(ops) && SrcLen(ops) == |text|
    ensures Shown(text, ops, 0) == Run(text, ops)
  {
    ShownFrom(text, ops, 0);
    Whole(text);
  }

  method ShowChangeset(text: string, c: Changeset) returns (r: Option<string>)
    requires NonNegative(c.ops)
    ensures r == if c.oldLen == |text| then Some(Shown(text, c.ops, 0)) else None
  {
    hide Shown, NonNegative, Slice;
    if c.oldLen != |text| {
      return None;
    }
    var result, pos := "", 0;
    NothingShown(text);
    Whole(c.ops);
    Whole(Shown(text, c.ops, 0));
    for i := 0 to |c.ops|
      invariant pos >= 0 && NonNegative(c.ops[i..])
      invariant Shown(text, c.ops, 0) == result + Shown(text, c.ops[i..], pos)
    {
      ShownStep(text, c.ops, i, pos, result);
      match c.ops[i] {
        case Retain(n) =>
          result := result + Slice(text, pos, pos + n);
          pos := pos + n;
        case Insert(s) =>
          result := result + s;
        case Delete(n) =>
          pos := pos + n;
      }
    }
    NothingShown(text);
    Whole(result);
    return Some(result);
  }

  lemma NothingShown(text: string)
    ensures NonNegative([]) && forall pos: nat :: Shown(text, [], pos) == ""
  {
  }

  lemma ShownStep(text: string, ops: seq<Op>, i: nat, pos: nat, result: string)
    requires NonNegative(ops) && i < |ops|
    ensures Size(ops[i]) >= 0 && NonNegative(ops[i..]) && NonNegative(ops[i + 1..])
    ensures result + Shown(text, ops[i..], pos) ==
            match ops[i]
            case Insert(s) => (result + s) + Shown(text, ops[i + 1..], pos)
            case Retain(n) => (result + Slice(text, pos, pos + n)) + Shown(text, ops[i + 1..], pos + n)
            case Delete(n) => result + Shown(text, ops[i + 1..], pos + n)
  {
    DropDrop(ops, i, 1);
    var op := ops[i];
    if op.Insert? {
      Assoc(result, op.chars, Shown(text, ops[i + 1..], pos));
    } else if op.Retain? {
      Assoc(result, Slice(text, pos, pos + op.len), Shown(text, ops[i + 1..], pos + op.len));
    }
  }
}
