/** What a client's screen shows over whole runs, and what its resubmissions do. */
module Screens {
  import opened Options
  import opened Changesets
  import opened Follows
  import opened Convergence
  import opened Histories
  import opened Diffs
  import opened DocumentFsm
  import opened Clients
  import opened Sessions

  // ------------------------------------------------------------ runs without adjacent insertions

  /** What the log holds, and what is on its way there, has no adjacent insertions. */
  ghost predicate Apart(s: Session) {
    && AllSeparated(Changes(s.doc.log))
    && (s.pending.Some? ==> NoAdjacentInserts(s.pending.value.changeset.ops))
  }

  predicate EventApart(ev: Event) {
    ev.CommitOther? ==> NoAdjacentInserts(ev.entry.changeset.ops)
  }

  /** The other clients submit nothing with adjacent insertions; this one never does. */
  ghost predicate SeparatedRun(states: seq<Session>, events: seq<Event>) {
    && IsRun(states, events) && AllSeparated(Changes(states[0].doc.log))
    && forall i :: 0 <= i < |events| ==> EventApart(events[i])
  }

  lemma StepApart(s: Session, ev: Event)
    requires Enabled(s, ev) && Apart(s) && EventApart(ev)
    ensures Apart(Step(s, ev))
  {
    hide Run, Follow, Diff, ApplyEntry, Broadcast, Acknowledge, AllSeparated;
    match ev {
      case Type(_) =>
      case Tick =>
        var r := Submit(s.client);
        if r.sent.Some? {
          MergedHasNoAdjacentInserts(r.client.X);
        }
      case CommitPending => ApplyKeepsSeparated(s.doc, s.pending.value);
      case CommitOther(e) => ApplyKeepsSeparated(s.doc, e);
      case Deliver =>
    }
  }

  lemma {:induction false} RunApart(t: string, states: seq<Session>, events: seq<Event>, k: nat)
    requires SeparatedRun(states, events) && Start(t, states[0]) && k < |states|
    ensures Apart(states[k])
  {
    hide Start, Apart, Step, Enabled;
    if k == 0 {
      StartApart(t, states[0]);
    } else {
      RunApart(t, states, events, k - 1);
      StepApart(states[k - 1], events[k - 1]);
    }
  }

  lemma StartApart(t: string, s: Session)
    requires Start(t, s) && AllSeparated(Changes(s.doc.log))
    ensures Apart(s)
  {
  }

  /** After a broadcast the client shows A . X . Y exactly when it ties with X alike both ways. */
  lemma DeliveredScreen(s: Session)
    requires Enabled(s, Deliver) && s.doc.log[s.client.serverRev].source != s.client.id
    ensures Positive(s.doc.log[s.client.serverRev].changeset.ops) && Positive(s.client.X.ops)
    ensures ShowsAXY(Step(s, Deliver).client) <==>
              TiesAgree(s.doc.log[s.client.serverRev].changeset.ops, s.client.X.ops)
  {
    hide Run, Follow, Diff, TiesAgree;
    var B, rev := s.doc.log[s.client.serverRev].changeset, s.client.serverRev + 1;
    BroadcastFits(s.client, B, rev);
    ScreenHoldsExactlyWhenTiesAgree(s.client, B, rev);
  }

  /** The screen invariant over every run: it holds after a broadcast if and only if the ties agree. */
  lemma RunScreenExactlyWhenTiesAgree(states: seq<Session>, events: seq<Event>, k: nat)
    requires IsRun(states, events) && k < |events| && events[k].Deliver?
    requires 0 <= states[k].client.serverRev < |states[k].doc.log|
    requires states[k].doc.log[states[k].client.serverRev].source != states[k].client.id
    ensures var B, X := states[k].doc.log[states[k].client.serverRev].changeset, states[k].client.X;
            && Positive(B.ops) && Positive(X.ops)
            && (ShowsAXY(states[k + 1].client) <==> TiesAgree(B.ops, X.ops))
  {
    hide Step, ShowsAXY, TiesAgree, Run;
    DeliveredScreen(states[k]);
  }

  /** The screen invariant of section 11.4 after every broadcast of every such run. */
  lemma RunKeepsScreen(t: string, states: seq<Session>, events: seq<Event>, k: nat)
    requires SeparatedRun(states, events) && Start(t, states[0]) && k < |events| && events[k].Deliver?
    requires 0 <= states[k].client.serverRev < |states[k].doc.log|
    requires states[k].doc.log[states[k].client.serverRev].source != states[k].client.id
    ensures ShowsAXY(states[k + 1].client)
  {
    hide Start, Step, ShowsAXY, TiesAgree, Run;
    var s := states[k];
    RunApart(t, states, events, k);
    var B := s.doc.log[s.client.serverRev].changeset;
    assert Changes(s.doc.log)[s.client.serverRev] == B;
    MergedHasNoAdjacentInserts(s.client.X);
    CanonicalTiesAgree(B.ops, s.client.X.ops);
    DeliveredScreen(s);
  }

  // ------------------------------------------------------------ what changes the screen at all

  /** The next revision is another client's. */
  ghost predicate Foreign(s: Session)
    requires Enabled(s, Deliver)
  {
    s.doc.log[s.client.serverRev].source != s.client.id
  }

  /** An event that cannot part the screen from A . X . Y. */
  ghost predicate Harmless(s: Session, ev: Event)
    requires Enabled(s, ev)
  {
    match ev
    case Type(_) => false
    case Deliver => Foreign(s) ==> TiesAgree(s.doc.log[s.client.serverRev].changeset.ops, s.client.X.ops)
    case _ => true
  }

  lemma StepScreen(s: Session, ev: Event)
    requires Enabled(s, ev)
    ensures Step(s, ev).client.editor != s.client.editor ==> ev.Type? || (ev.Deliver? && Foreign(s))
    ensures ShowsAXY(s.client) && Harmless(s, ev) ==> ShowsAXY(Step(s, ev).client)
  {
    hide Run, Follow, Diff, TiesAgree, ApplyEntry, Broadcast, Acknowledge, ShowsAXY, Submit;
    match ev {
      case Type(_) =>
      case Tick => TickKeepsScreen(s.client, false);
      case CommitPending =>
      case CommitOther(e) =>
      case Deliver =>
        if Foreign(s) {
          DeliveredScreen(s);
        } else {
          AcknowledgeKeepsScreen(s.client, s.client.serverRev + 1);
        }
    }
  }

  /** In every step of every run, only typing and other clients' revisions change the screen. */
  lemma RunScreenChanges(states: seq<Session>, events: seq<Event>, k: nat)
    requires IsRun(states, events) && k < |events|
    requires states[k + 1].client.editor != states[k].client.editor
    ensures events[k].Type? || (events[k].Deliver? && Enabled(states[k], Deliver) && Foreign(states[k]))
  {
    hide Step, Enabled;
    StepScreen(states[k], events[k]);
  }

  /**
   * Over every stretch of a run without typing in which the broadcasts tie alike, submissions,
   * acknowledgements and commits keep A . X . Y on the screen.
   */
  lemma {:induction false} RunKeepsAXY(states: seq<Session>, events: seq<Event>, a: nat, b: nat)
    requires IsRun(states, events) && a <= b < |states| && ShowsAXY(states[a].client)
    requires forall k :: a <= k < b ==> Enabled(states[k], events[k]) && Harmless(states[k], events[k])
    ensures ShowsAXY(states[b].client)
    decreases b - a
  {
    hide Step, Enabled, Harmless, ShowsAXY;
    if a < b {
      RunKeepsAXY(states, events, a, b - 1);
      StepScreen(states[b - 1], events[b - 1]);
    }
  }

  // ------------------------------------------------------------ a run in which it breaks

  function Begin(): Session {
    Session(NewDoc(""), FirstConnect("me", 0, "", 0), None)
  }

  function Theirs(): Submission {
    Submission("you", 1, 0, TwoInserts())
  }

  lemma DiffOfOneLetter()
    ensures Diff("", "b") == OneInsert()
  {
    assert Front("b") == "" && Last("b") == 'b';
    assert Segs("", "b") == [Added('b')];
    assert SegOps([Added('b')]) == [Insert("b")];
  }

  lemma TheirsCommits()
    ensures ApplyEntry(NewDoc(""), Theirs()).doc
         == Doc("ba", 1, [Revision(0, TwoInserts(), "you")], map["you" := 1])
  {
    TheirTexts();
    var d := NewDoc("");
    CatchUpDone(TwoInserts());
    assert Missed(d, Theirs()) == [];
    hide Run, CatchUp;
  }

  /** Typed and submitted "b", while the others' two insertions went first. */
  lemma SubmitsFirst() returns (s: Session)
    ensures IsRun([Begin(), Step(Begin(), Type("b")), s], [Type("b"), Tick])
    ensures s.doc == NewDoc("") && s.client.X == OneInsert() && s.client.editor == "b" && s.client.baseText == ""
    ensures s.client.id == "me" && s.client.serverRev == 0 && Consistent(s.client)
  {
    var s1 := Step(Begin(), Type("b"));
    DiffOfOneLetter();
    assert Consistent(Begin().client);
    s := Step(s1, Tick);
  }

  /** What the delivery makes of it: the screen reads "bba" where A . X . Y is "bab". */
  lemma BrokenScreen(c: Client)
    requires Consistent(c) && c.baseText == "" && c.X == OneInsert() && c.editor == "b"
    ensures Fits(c, TwoInserts())
    ensures var r := Broadcast(c, TwoInserts(), 1);
            && Valid(r.Y) && r.Y.oldLen == |Submitted(r)|
            && r.editor == "bba" && Run(Submitted(r), r.Y.ops) == "bab"
  {
    hide Run, Follow, Final, Consistent, Diff;
    TheirTexts();
    WalksDiffer();
    var B, X := TwoInserts(), OneInsert();
    FollowMeaning("", B, X);
    FollowMeaning("", X, B);
    assert Submitted(c) == c.editor;
    BroadcastFits(c, B, 1);
    ScreenIsRebased(c, B, 1);
    UntypedStaysUntyped(c, B, 1);
    var r := Broadcast(c, B, 1);
    IdentityIsIdentity(r.Y, Submitted(r));
    IdentityIsIdentity(r.Y, Run(Submitted(c), Follow(X, B).ops));
  }

  /** Without that form a run can break the screen invariant. */
  lemma ScreenBreaks() returns (states: seq<Session>, events: seq<Event>)
    ensures IsRun(states, events) && Start("", states[0]) && |states| == 5
    ensures var c := states[4].client;
            && Consistent(c) && Valid(c.Y) && c.Y.oldLen == |Submitted(c)|
            && c.editor == "bba" && Run(Submitted(c), c.Y.ops) == "bab"
  {
    hide Run, Follow, Diff, CatchUp, Consistent, Submit;
    var s1 := Step(Begin(), Type("b"));
    var s2 := SubmitsFirst();
    TheirsCommits();
    BrokenScreen(s2.client);
    var s3 := Step(s2, CommitOther(Theirs()));
    assert s3.doc.log[0] == Revision(0, TwoInserts(), "you");
    var s4 := Step(s3, Deliver);
    events := [Type("b"), Tick, CommitOther(Theirs()), Deliver];
    states := [Begin(), s1, s2, s3, s4];
    FreshReplays("");
  }

  // ------------------------------------------------------------ resubmission

  /** While the submission is on its way, committing the client's present copy instead changes nothing. */
  lemma ResentCopyCommitsAlike(t: string, s: Session)
    requires Agrees(t, s) && s.pending.Some?
    ensures TimerTick(s.client, true).sent.Some?
    ensures var copy := TimerTick(s.client, true).sent.value;
            && 0 <= copy.baseRev && Positive(copy.changeset.ops)
            && ApplyEntry(s.doc, copy) == ApplyEntry(s.doc, s.pending.value)
  {
    hide CatchUp, TextAt, Replays, ApplyEntry, Consistent;
    var e := s.pending.value;
    ReplaysWellFormed(t, s.doc);
    RebasedCopyCommitsAlike(s.doc, e, s.client.serverRev);
  }

  /** Once it is committed, any copy still sent is skipped. */
  lemma LateCopyIsSkipped(t: string, s: Session)
    requires Agrees(t, s) && s.client.waitingForAck && s.pending.None?
    ensures TimerTick(s.client, true).sent.Some?
    ensures var copy := TimerTick(s.client, true).sent.value;
            && 0 <= copy.baseRev && Positive(copy.changeset.ops)
            && ApplyEntry(s.doc, copy).doc == s.doc && ApplyEntry(s.doc, copy).outcome.Duplicate?
  {
    hide CatchUp, TextAt, CommittedAt;
    ReplaysWellFormed(t, s.doc);
  }
}
