/**
 * The browser's state machine: the view is A . X . Y, where A is what the server confirmed,
 * X is submitted and unacknowledged, and Y is typed and not yet submitted.
 */
module Clients {
  import opened Options
  import opened Sequences
  import opened Changesets
  import opened Follows
  import opened BrowserText
  import opened Convergence
  import opened KeptUnits
  import opened OpLists
  import opened Composition
  import opened Diffs
  import opened DocumentFsm

  datatype Client = Client(
    id: string, A: Changeset, X: Changeset, Y: Changeset,
    serverRev: int, nextSubmissionId: int, waitingForAck: bool,
    baseText: string, editor: string)

  /** What every handler keeps. */
  ghost predicate Consistent(c: Client) {
    && Canonical(c.A) && c.A.oldLen == 0 && Run("", c.A.ops) == c.baseText
    && Canonical(c.X) && c.X.oldLen == |c.baseText|
    && (!c.waitingForAck ==> c.X == Identity(|c.baseText|))
  }

  /** The confirmed text with the submitted edits on top: what Y starts from. */
  function Submitted(c: Client): (s: string)
    requires Consistent(c)
    ensures |s| == c.X.newLen && c.A.newLen == |c.baseText|
    ensures !c.waitingForAck ==> s == c.baseText
  {
    RunLength("", c.A.ops);
    RunLength(c.baseText, c.X.ops);
    IdentityIsIdentity(c.X, c.baseText);
    Run(c.baseText, c.X.ops)
  }

  /** First connection: the server's head is the whole truth. */
  function FirstConnect(id: string, nextSubmissionId: int, headText: string, headRev: int): (c: Client)
    ensures Consistent(c)
  {
    Client(id, TextToChangeset(headText), Identity(|headText|), Identity(|headText|),
           headRev, nextSubmissionId, false, headText, headText)
  }

  /** The confirmed side after one more committed changeset. */
  function Confirm(c: Client, B: Changeset): (A: Changeset)
    requires Consistent(c) && Valid(B) && B.oldLen == |c.baseText|
    ensures Canonical(A) && A.oldLen == 0 && A.newLen == B.newLen
    ensures Run("", A.ops) == Run(c.baseText, B.ops)
  {
    RunLength("", c.A.ops);
    ComposeMeaning("", c.A, B);
    Compose(c.A, B)
  }

  /** handleAck: fold X into A. */
  function Acknowledge(c: Client, newRev: int): (r: Client)
    requires Consistent(c)
    ensures Consistent(r) && r.baseText == Submitted(c) && r.serverRev == newRev && !r.waitingForAck
    ensures r.editor == c.editor && r.Y == c.Y
    ensures r.id == c.id && r.nextSubmissionId == c.nextSubmissionId
  {
    var A := Confirm(c, c.X);
    RunLength("", A.ops);
    c.(A := A, X := Identity(A.newLen), serverRev := newRev, waitingForAck := false, baseText := Run("", A.ops))
  }

  /** Y as the handlers recompute it, from what is on the screen. */
  function Typed(c: Client): (Y: Changeset)
    requires Consistent(c)
    ensures Canonical(Y) && Y.oldLen == c.X.newLen && Y.newLen == |c.editor|
    ensures Run(Submitted(c), Y.ops) == c.editor
  {
    DiffIsMinimal(Submitted(c), c.editor);
    Diff(Submitted(c), c.editor)
  }

  predicate Fits(c: Client, B: Changeset) {
    Valid(B) && B.oldLen == |c.baseText|
  }

  /** The change a broadcast makes to the screen: D = f(Y, f(X, B)). */
  function ScreenChange(c: Client, B: Changeset): (D: Changeset)
    requires Consistent(c) && Fits(c, B)
    ensures Canonical(D) && D.oldLen == |c.editor|
  {
    FollowIsCanonical(c.X, B);
    FollowIsCanonical(Typed(c), Follow(c.X, B));
    Follow(Typed(c), Follow(c.X, B))
  }

  /** handleBroadcast: section 11.4 of the EasySync manual, with Y recomputed first. */
  function Broadcast(c: Client, B: Changeset, newRev: int): (r: Client)
    requires Consistent(c) && Fits(c, B)
    ensures Consistent(r) && r.baseText == Run(c.baseText, B.ops)
    ensures r.X == Follow(B, c.X) && r.serverRev == newRev
    ensures r.id == c.id && r.waitingForAck == c.waitingForAck && r.nextSubmissionId == c.nextSubmissionId
  {
    FollowIsCanonical(B, c.X);
    FollowIdentity(B);
    var D := ScreenChange(c, B);
    var A := Confirm(c, B);
    RunLength("", A.ops);
    c.(A := A, X := Follow(B, c.X), Y := Follow(Follow(c.X, B), Typed(c)), serverRev := newRev,
       baseText := Run("", A.ops), editor := Run(c.editor, D.ops))
  }

  /** The handler on any broadcast: nothing in it fails, whether or not B was made for this text. */
  function Receive(c: Client, B: Changeset, newRev: int): (r: Client)
    requires Consistent(c) && Positive(B.ops)
    ensures Fits(c, B) ==> r == Broadcast(c, B, newRev)
  {
    var Y, B', A := Typed(c), Follow(c.X, B), Compose(c.A, B);
    FittingIsShown(c, B, newRev);
    c.(A := A, X := Follow(B, c.X), Y := Follow(B', Y), serverRev := newRev,
       editor := Shown(c.editor, Follow(Y, B').ops, 0), baseText := Shown("", A.ops, 0))
  }

  /** On a fitting broadcast the unchecked passes of the browser yield what the changesets mean. */
  lemma FittingIsShown(c: Client, B: Changeset, newRev: int)
    requires Consistent(c) && Positive(B.ops)
    ensures Fits(c, B) ==>
              && Shown(c.editor, ScreenChange(c, B).ops, 0) == Broadcast(c, B, newRev).editor
              && Shown("", Compose(c.A, B).ops, 0) == Broadcast(c, B, newRev).baseText
  {
    hide Run, Follow, Diff, Compose, Shown;
    if Fits(c, B) {
      var D, A := ScreenChange(c, B), Confirm(c, B);
      ShownIsRun(c.editor, D.ops);
      ShownIsRun("", A.ops);
    }
  }

  /** A broadcast for a shorter text is taken all the same, and cuts the screen to that length. */
  lemma ShorterIsTaken(c: Client, m: nat, newRev: int)
    requires Consistent(c) && !c.waitingForAck && c.editor == c.baseText && 0 < m < |c.baseText|
    ensures var B := Changeset(m, m, [Retain(m)]);
            && Valid(B) && !Fits(c, B)
            && Receive(c, B, newRev).editor == c.editor[..m] && Receive(c, B, newRev).serverRev == newRev
  {
    UntypedAtFirst(c);
    RetainFollows(|c.baseText|, m);
    ShownRetain(c.editor, m);
    hide Diff, Follow, Compose, Shown, Run, Consistent;
    assert Valid(Changeset(m, m, [Retain(m)])) by { RetainValid(m); }
  }

  lemma RetainValid(m: nat)
    requires m > 0
    ensures Valid(Changeset(m, m, [Retain(m)]))
  {
  }

  lemma ShownRetain(text: string, m: nat)
    requires 0 < m <= |text|
    ensures Shown(text, [Retain(m)], 0) == text[..m]
  {
    assert [Retain(m)][1..] == [];
    Whole(text[..m]);
  }

  lemma UntypedAtFirst(c: Client)
    requires Consistent(c) && !c.waitingForAck && c.editor == c.baseText
    ensures Typed(c) == Identity(|c.baseText|) && c.X == Identity(|c.baseText|)
  {
    DiffIsIdentityExactlyWhenEqual(Submitted(c), c.editor);
    IdentityIsIdentity(Typed(c), Submitted(c));
  }

  /** A retain rebased past a longer one covers what both cover. */
  lemma RetainFollows(n: nat, m: nat)
    requires 0 < m < n
    ensures Follow(Identity(n), Changeset(m, m, [Retain(m)])).ops == [Retain(m)]
    ensures forall k: int :: Follow(Identity(n), Changeset(n, k, [Retain(m)])).ops == [Retain(m)]
  {
    var a, b: seq<Op> := [Retain(n)], [Retain(m)];
    assert Advance(b, m) == [] && FollowOps(Advance(a, m), []) == [];
    assert FollowOps(a, b) == [Retain(m)];
    assert AddAll([], [Retain(m)]) == [Retain(m)];
  }

  datatype Submitting = Submitting(client: Client, sent: Option<Submission>)

  /** submitTick while no acknowledgement is outstanding: move Y to X and send it. */
  function Submit(c: Client): (r: Submitting)
    requires Consistent(c) && !c.waitingForAck
    ensures Consistent(r.client) && r.client.editor == c.editor
    ensures r.sent.Some? ==>
              && r.client.waitingForAck && r.client.X == r.sent.value.changeset
              && r.sent.value.clientId == c.id && r.sent.value.baseRev == c.serverRev
              && r.sent.value.submissionId == r.client.nextSubmissionId == c.nextSubmissionId + 1
  {
    var Y := Typed(c);
    if IsIdentity(Y) then Submitting(c, None)
    else
      var c' := c.(X := Y, Y := Identity(|c.editor|), waitingForAck := true,
        nextSubmissionId := c.nextSubmissionId + 1);
      Submitting(c', Some(Submission(c.id, c'.nextSubmissionId, c.serverRev, Y)))
  }

  /** submitTick: while an acknowledgement is outstanding, X is sent again when `due`. */
  function TimerTick(c: Client, due: bool): (r: Submitting)
    requires Consistent(c)
    ensures Consistent(r.client) && (c.waitingForAck ==> r.client == c && (r.sent.Some? <==> due))
    ensures r.sent.Some? ==>
              && r.client.waitingForAck && r.sent.value.changeset == r.client.X
              && r.sent.value.clientId == c.id && r.sent.value.baseRev == c.serverRev
              && r.sent.value.submissionId == r.client.nextSubmissionId
  {
    if !c.waitingForAck then Submit(c)
    else Submitting(c, if due then Some(Submission(c.id, c.nextSubmissionId, c.serverRev, c.X)) else None)
  }

  /** Something is submitted exactly when the screen differs from the confirmed text. */
  lemma SubmitsExactlyTheDifference(c: Client)
    requires Consistent(c) && !c.waitingForAck
    ensures Submit(c).sent.Some? <==> c.editor != c.baseText
    ensures Submit(c).sent.Some? ==> Submitted(Submit(c).client) == c.editor
  {
    DiffIsIdentityExactlyWhenEqual(Submitted(c), c.editor);
  }

  // ------------------------------------------------------------ what is on the screen

  /** A . X . Y of a client is what it shows. */
  ghost predicate ShowsAXY(c: Client) {
    && Consistent(c) && Valid(c.Y) && c.Y.oldLen == |Submitted(c)|
    && Run(Submitted(c), c.Y.ops) == c.editor
  }

  /** A client that connects shows the server's text. */
  lemma ConnectShowsHead(id: string, nextSubmissionId: int, headText: string, headRev: int)
    ensures var c := FirstConnect(id, nextSubmissionId, headText, headRev);
            ShowsAXY(c) && c.editor == c.baseText == headText && c.serverRev == headRev
  {
    IdentityIsIdentity(Identity(|headText|), headText);
  }

  /**
   * An acknowledgement changes nothing on the screen, takes nothing away from what has been typed
   * since, and leaves A . X . Y the same text.
   */
  lemma AcknowledgeKeepsScreen(c: Client, newRev: int)
    requires Consistent(c)
    ensures var r := Acknowledge(c, newRev);
            && r.editor == c.editor && Submitted(r) == Submitted(c) && Typed(r) == Typed(c)
            && (ShowsAXY(r) <==> ShowsAXY(c))
  {
    hide Run, Diff, Compose;
  }

  /** Nor does the timer: whatever it sends, the screen stays, and A . X . Y with it. */
  lemma TickKeepsScreen(c: Client, due: bool)
    requires Consistent(c)
    ensures var r := TimerTick(c, due);
            && r.client.editor == c.editor && r.client.baseText == c.baseText
            && (ShowsAXY(c) ==> ShowsAXY(r.client))
            && (!c.waitingForAck && r.sent.Some? ==> ShowsAXY(r.client))
  {
    hide Run, Diff;
    if !c.waitingForAck && !IsIdentity(Typed(c)) {
      IdentityIsIdentity(Identity(|c.editor|), c.editor);
    }
  }

  /** The law of section 11.4: after the broadcast, A' . X' . Y' is the text on the screen. */
  ghost predicate ScreenHolds(c: Client, B: Changeset, newRev: int)
    requires Consistent(c) && Fits(c, B)
  {
    BroadcastFits(c, B, newRev);
    var r := Broadcast(c, B, newRev);
    Run(Submitted(r), r.Y.ops) == r.editor
  }

  /** Whatever the ties, Y' fits what it is applied to, and D has been applied to the screen. */
  lemma BroadcastFits(c: Client, B: Changeset, newRev: int)
    requires Consistent(c) && Fits(c, B)
    ensures var r := Broadcast(c, B, newRev);
            && Canonical(r.Y) && r.Y.oldLen == |Submitted(r)|
            && r.editor == Run(c.editor, ScreenChange(c, B).ops)
  {
    hide Run, Follow, Diff;
    FollowConvergesExactlyWhenTiesAgree(c.baseText, B, c.X);
    FollowIsCanonical(c.X, B);
    FollowIsCanonical(Follow(c.X, B), Typed(c));
  }

  /** The screen shows the submitted text changed by B' = f(X, B), with Y' on top. */
  lemma ScreenIsRebased(c: Client, B: Changeset, newRev: int)
    requires Consistent(c) && Fits(c, B)
    ensures var r, B' := Broadcast(c, B, newRev), Follow(c.X, B);
            && Valid(B') && B'.oldLen == |Submitted(c)| && r.Y.oldLen == |Run(Submitted(c), B'.ops)|
            && Valid(r.Y) && r.editor == Run(Run(Submitted(c), B'.ops), r.Y.ops)
  {
    hide Run, Follow, Diff, NoAdjacentInserts;
    var B', Y := Follow(c.X, B), Typed(c);
    FollowIsCanonical(c.X, B);
    MergedHasNoAdjacentInserts(B');
    MergedHasNoAdjacentInserts(Y);
    FollowConverges(Submitted(c), B', Y);
  }

  /** It is enough that the broadcast and the client's own submission tie alike. */
  lemma TiesKeepScreen(c: Client, B: Changeset, newRev: int)
    requires Consistent(c) && Fits(c, B) && TiesAgree(B.ops, c.X.ops)
    ensures ScreenHolds(c, B, newRev)
  {
    hide Run, Follow, Diff, TiesAgree;
    BroadcastFits(c, B, newRev);
    ScreenIsRebased(c, B, newRev);
    FollowConvergesExactlyWhenTiesAgree(c.baseText, B, c.X);
  }

  /** And it is necessary: whatever has been typed, the screen holds exactly when they tie alike. */
  lemma ScreenHoldsExactlyWhenTiesAgree(c: Client, B: Changeset, newRev: int)
    requires Consistent(c) && Fits(c, B)
    ensures ScreenHolds(c, B, newRev) <==> TiesAgree(B.ops, c.X.ops)
  {
    hide Run, Follow, Diff, TiesAgree, NoAdjacentInserts;
    BroadcastFits(c, B, newRev);
    ScreenIsRebased(c, B, newRev);
    FollowConvergesExactlyWhenTiesAgree(c.baseText, B, c.X);
    MergedHasNoAdjacentInserts(c.X);
    RebasedTellsApart(c.baseText, c.X, B, Typed(c));
  }

  lemma UntypedStaysUntyped(c: Client, B: Changeset, newRev: int)
    requires Consistent(c) && Fits(c, B) && c.editor == Submitted(c)
    ensures Follow(c.X, B).newLen >= 0 && Broadcast(c, B, newRev).Y == Identity(Follow(c.X, B).newLen)
  {
    hide Run, Follow, Diff;
    DiffIsIdentityExactlyWhenEqual(Submitted(c), c.editor);
    IdentityIsIdentity(Typed(c), Submitted(c));
    FollowIsCanonical(c.X, B);
    FollowIdentity(Follow(c.X, B));
  }

  /** Without adjacent insertions in the broadcast the screen always holds. */
  lemma BroadcastKeepsScreen(c: Client, B: Changeset, newRev: int)
    requires Consistent(c) && Fits(c, B) && NoAdjacentInserts(B.ops)
    ensures ScreenHolds(c, B, newRev)
  {
    hide Run, Follow, Diff, TiesAgree;
    MergedHasNoAdjacentInserts(c.X);
    CanonicalTiesAgree(B.ops, c.X.ops);
    TiesKeepScreen(c, B, newRev);
  }

  lemma MergedHasNoAdjacentInserts(c: Changeset)
    requires Merged(c.ops)
    ensures NoAdjacentInserts(c.ops)
  {
  }

  /** The client object; each handler is its specification above. */
  class EditorClient {
    var state: Client

    ghost predicate Ready()
      reads this
    {
      Consistent(state)
    }

    constructor (id: string, nextSubmissionId: int, headText: string, headRev: int)
      ensures Ready() && state == FirstConnect(id, nextSubmissionId, headText, headRev)
    {
      state := FirstConnect(id, nextSubmissionId, headText, headRev);
    }

    method HandleAck(newRev: int)
      requires Ready()
      modifies this
      ensures Ready() && state == Acknowledge(old(state), newRev)
    {
      hide Run, Compose;
      ghost var want := Acknowledge(state, newRev);
      ghost var A := Confirm(state, state.X);
      var composed := ComputeCompose(state.A, state.X);
      var text := ShowChangeset("", composed);
      ShownIsRun("", A.ops);
      RunLength("", A.ops);
      state := state.(A := composed, X := Identity(composed.newLen), serverRev := newRev, waitingForAck := false,
                      baseText := if text.Some? then text.value else state.editor);
    }

    method HandleBroadcast(B: Changeset, newRev: int)
      requires Ready() && Positive(B.ops)
      modifies this
      ensures state == Receive(old(state), B, newRev)
      ensures Fits(old(state), B) ==> Ready() && state == Broadcast(old(state), B, newRev)
    {
      hide Run, Compose, Follow, Diff, Shown;
      ghost var c := state;
      ghost var want, s := Receive(c, B, newRev), Submitted(c);
      ShownIsRun(state.baseText, state.X.ops);
      var afterAX := ShowChangeset(state.baseText, state.X);
      var Y := ComputeDiff(afterAX.value, state.editor);
      state := state.(Y := Y);
      var XfollowB := ComputeFollow(state.X, B);
      var BfollowX := ComputeFollow(B, state.X);
      var A := ComputeCompose(state.A, B);
      var Yrebased := ComputeFollow(XfollowB, Y);
      var D := ComputeFollow(Y, XfollowB);
      var newText := ShowChangeset(state.editor, D);
      state := state.(A := A, X := BfollowX, Y := Yrebased, serverRev := newRev, editor := newText.value);
      var base := ShowChangeset("", A);
      state := state.(baseText := base.value);
    }

    method SubmitTick(due: bool) returns (sent: Option<Submission>)
      requires Ready()
      modifies this
      ensures Ready() && Submitting(state, sent) == TimerTick(old(state), due)
    {
      hide Run, Diff;
      if state.waitingForAck {
        return if due then Some(Submission(state.id, state.nextSubmissionId, state.serverRev, state.X)) else None;
      }
      ghost var want, s := Submit(state), Submitted(state);
      var Y := ComputeDiff(state.baseText, state.editor);
      if IsIdentity(Y) {
        return None;
      }
      state := state.(X := Y, Y := Identity(|state.editor|), waitingForAck := true,
                      nextSubmissionId := state.nextSubmissionId + 1);
      return Some(Submission(state.id, state.nextSubmissionId, state.serverRev, Y));
    }
  }
}
