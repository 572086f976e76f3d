/**
 * Whole runs of one client against the server: typing, submitting, commits by anyone, and
 * in-order delivery of the revision log, one acknowledgement per submission.
 */
module Sessions {
  import opened Options
  import opened Sequences
  import opened Changesets
  import opened Follows
  import opened Histories
  import opened DocumentFsm
  import opened Clients

  /** `pending` is a submission on its way to the log. */
  datatype Session = Session(doc: Doc, client: Client, pending: Option<Submission>)

  datatype Event =
    | Type(text: string)
    | Tick
    | CommitPending
    | CommitOther(entry: Submission)
    | Deliver

  ghost predicate Enabled(s: Session, ev: Event) {
    && WellFormed(s.doc) && Consistent(s.client)
    && match ev
       case Type(_) => true
       case Tick => !s.client.waitingForAck
       case CommitPending => s.pending.Some? && Sound(s.pending.value)
       case CommitOther(e) => Sound(e) && e.clientId != s.client.id
       case Deliver =>
         && 0 <= s.client.serverRev < s.doc.headRev
         && Fits(s.client, s.doc.log[s.client.serverRev].changeset)
  }

  ghost function Step(s: Session, ev: Event): (r: Session)
    requires Enabled(s, ev)
  {
    match ev
    case Type(text) => s.(client := s.client.(editor := text))
    case Tick =>
      var r := Submit(s.client);
      s.(client := r.client, pending := if r.sent.Some? then r.sent else s.pending)
    case CommitPending => s.(doc := ApplyEntry(s.doc, s.pending.value).doc, pending := None)
    case CommitOther(e) => s.(doc := ApplyEntry(s.doc, e).doc)
    case Deliver =>
      var rec := s.doc.log[s.client.serverRev];
      if rec.source == s.client.id
      then s.(client := Acknowledge(s.client, s.client.serverRev + 1))
      else s.(client := Broadcast(s.client, rec.changeset, s.client.serverRev + 1))
  }

  /** A client that has just connected to the head of a document. */
  ghost predicate Start(t: string, s: Session) {
    && Replays(t, s.doc) && s.pending.None?
    && s.client == FirstConnect(s.client.id, s.client.nextSubmissionId, s.doc.headText, s.doc.headRev)
    && (s.client.id in s.doc.lastSub ==> s.doc.lastSub[s.client.id] <= s.client.nextSubmissionId)
  }

  // ------------------------------------------------------------ the invariant

  /** Revisions the client has not seen yet, none of them its own. */
  predicate NoneMine(s: Session, from: nat) {
    forall i :: from <= i < |s.doc.log| ==> s.doc.log[i].source != s.client.id
  }

  /** The client's confirmed text is the server's text at the client's revision. */
  ghost predicate InStep(t: string, s: Session) {
    && Replays(t, s.doc) && Consistent(s.client)
    && 0 <= s.client.serverRev <= s.doc.headRev
    && s.client.baseText == TextAt(t, s.doc, s.client.serverRev)
  }

  /** X is the catch-up of what was submitted, across what the client has seen since. */
  predicate Tracks(e: Submission, X: Changeset, cs: seq<Changeset>, rev: int) {
    && Sound(e) && AllPositive(cs) && e.baseRev <= rev <= |cs|
    && X == CatchUp(e.changeset, cs[e.baseRev..rev])
  }

  lemma TracksNext(e: Submission, X: Changeset, cs: seq<Changeset>, rev: nat)
    requires Tracks(e, X, cs, rev) && rev < |cs|
    ensures Positive(X.ops) && Tracks(e, Follow(cs[rev], X), cs, rev + 1)
  {
    hide CatchUp, Follow;
    CatchUpSnoc(e.changeset, cs, e.baseRev, rev);
  }

  lemma TracksStable(e: Submission, X: Changeset, cs: seq<Changeset>, cs': seq<Changeset>, rev: int)
    requires Tracks(e, X, cs, rev) && AllPositive(cs') && cs <= cs'
    ensures Tracks(e, X, cs', rev)
  {
    assert cs'[e.baseRev..rev] == cs[e.baseRev..rev];
  }

  /** The pending submission is this client's newest, made for a revision the client has seen. */
  ghost predicate Waits(t: string, s: Session)
    requires InStep(t, s) && s.pending.Some?
  {
    var e := s.pending.value;
    && e.clientId == s.client.id && e.submissionId == s.client.nextSubmissionId
    && Tracks(e, s.client.X, Changes(s.doc.log), s.client.serverRev)
    && e.changeset.oldLen == |TextAt(t, s.doc, e.baseRev)|
    && (s.client.id in s.doc.lastSub ==> s.doc.lastSub[s.client.id] < e.submissionId)
  }

  /** Revision `q`, the only one of `id` from `rev` on, is what `X` becomes on the way there. */
  predicate CommittedIn(log: seq<Revision>, id: string, X: Changeset, rev: nat, q: nat)
    requires Positive(X.ops) && AllPositive(Changes(log))
  {
    && rev <= q < |log| && log[q].source == id
    && log[q].changeset == CatchUp(X, Changes(log)[rev..q])
    && (forall i :: rev <= i < |log| && i != q ==> log[i].source != id)
  }

  lemma CommittedInNext(log: seq<Revision>, id: string, X: Changeset, rev: nat, q: nat)
    requires Positive(X.ops) && AllPositive(Changes(log)) && CommittedIn(log, id, X, rev, q) && log[rev].source != id
    ensures Positive(Follow(Changes(log)[rev], X).ops) && CommittedIn(log, id, Follow(Changes(log)[rev], X), rev + 1, q)
  {
    hide CatchUp, Follow;
    CatchUpFirst(X, Changes(log), rev, q);
  }

  lemma CommittedInHead(log: seq<Revision>, id: string, X: Changeset, rev: nat, rec: Revision)
    requires Positive(X.ops) && AllPositive(Changes(log)) && AllPositive(Changes(log + [rec])) && rev <= |log|
    requires rec.source == id && rec.changeset == CatchUp(X, Changes(log)[rev..])
    requires forall i :: rev <= i < |log| ==> log[i].source != id
    ensures CommittedIn(log + [rec], id, X, rev, |log|)
  {
    hide CatchUp;
    assert Changes(log + [rec])[rev..|log|] == Changes(log)[rev..];
  }

  /** The submission is revision `q`, and X will have become exactly that revision on arrival. */
  predicate CommittedAt(s: Session, q: nat)
    requires WellFormed(s.doc) && Positive(s.client.X.ops) && 0 <= s.client.serverRev
  {
    CommittedIn(s.doc.log, s.client.id, s.client.X, s.client.serverRev, q)
  }

  ghost predicate Agrees(t: string, s: Session) {
    && InStep(t, s)
    && (s.client.id in s.doc.lastSub ==> s.doc.lastSub[s.client.id] <= s.client.nextSubmissionId)
    && (!s.client.waitingForAck ==> s.pending.None? && NoneMine(s, s.client.serverRev))
    && (s.pending.Some? ==> s.client.waitingForAck && NoneMine(s, s.client.serverRev) && Waits(t, s))
    && (s.client.waitingForAck && s.pending.None? ==>
          && (exists q :: CommittedAt(s, q))
          && s.client.id in s.doc.lastSub && s.doc.lastSub[s.client.id] == s.client.nextSubmissionId)
  }

  // ------------------------------------------------------------ commits

  lemma TextAtStable(t: string, d: Doc, d': Doc, rev: nat)
    requires Replays(t, d) && Replays(t, d') && d.log <= d'.log && rev <= |d.log|
    ensures TextAt(t, d', rev) == TextAt(t, d, rev)
    ensures forall i :: 0 <= i <= rev ==> Changes(d'.log)[i..rev] == Changes(d.log)[i..rev]
  {
    assert Changes(d'.log)[..rev] == Changes(d.log)[..rev];
    forall i | 0 <= i <= rev
      ensures Changes(d'.log)[i..rev] == Changes(d.log)[i..rev]
    {
    }
  }

  /** The log grew by revisions of other clients. */
  ghost predicate OthersCommitted(t: string, s: Session, s': Session) {
    && InStep(t, s) && InStep(t, s') && s'.client == s.client && s'.pending == s.pending
    && s.doc.log <= s'.doc.log
    && (forall i :: |s.doc.log| <= i < |s'.doc.log| ==> s'.doc.log[i].source != s.client.id)
    && (s.client.id in s'.doc.lastSub <==> s.client.id in s.doc.lastSub)
    && (s.client.id in s.doc.lastSub ==> s'.doc.lastSub[s.client.id] == s.doc.lastSub[s.client.id])
  }

  lemma WaitsStable(t: string, s: Session, s': Session)
    requires OthersCommitted(t, s, s') && s.pending.Some? && Waits(t, s)
    ensures Waits(t, s')
  {
    hide Run, CatchUp, TextAt, Consistent;
    var e := s.pending.value;
    assert 0 <= e.baseRev <= s.client.serverRev;
    TextAtStable(t, s.doc, s'.doc, e.baseRev);
    TracksStable(e, s.client.X, Changes(s.doc.log), Changes(s'.doc.log), s.client.serverRev);
    hide Tracks, Replays;
  }

  lemma CommittedAtStable(t: string, s: Session, s': Session, q: nat)
    requires OthersCommitted(t, s, s') && Positive(s.client.X.ops) && CommittedAt(s, q)
    ensures CommittedAt(s', q)
  {
    hide Run, CatchUp, TextAt, Consistent;
    TextAtStable(t, s.doc, s'.doc, q);
  }

  lemma InStepAfterCommit(t: string, s: Session, e: Submission)
    requires InStep(t, s) && Sound(e)
    ensures InStep(t, s.(doc := ApplyEntry(s.doc, e).doc))
    ensures s.doc.log <= ApplyEntry(s.doc, e).doc.log
  {
    ApplyKeepsReplay(t, s.doc, e);
    TextAtStable(t, s.doc, ApplyEntry(s.doc, e).doc, s.client.serverRev);
  }

  lemma CommitOtherAgrees(t: string, s: Session, e: Submission)
    requires Agrees(t, s) && Enabled(s, CommitOther(e))
    ensures Agrees(t, Step(s, CommitOther(e)))
  {
    var s' := Step(s, CommitOther(e));
    InStepAfterCommit(t, s, e);
    assert OthersCommitted(t, s, s') by { hide InStep; }
    hide Waits, CommittedAt, InStep, OthersCommitted, ApplyEntry;
    if s.pending.Some? {
      WaitsStable(t, s, s');
    } else if s.client.waitingForAck {
      var q :| CommittedAt(s, q);
      CommittedAtStable(t, s, s', q);
    }
  }

  /** The pending submission is accepted, as the catch-up of the client's present X. */
  lemma PendingAccepted(t: string, s: Session)
    requires Agrees(t, s) && s.pending.Some?
    ensures var e := s.pending.value;
            && ApplyEntry(s.doc, e).outcome.Accepted?
            && ApplyEntry(s.doc, e).outcome.cPrime
               == CatchUp(s.client.X, Changes(s.doc.log)[s.client.serverRev..])
  {
    var e, rev, cs := s.pending.value, s.client.serverRev, Changes(s.doc.log);
    FittingEntryAccepted(t, s.doc, e);
    hide CatchUp, Run, TextAt;
    MiddleSplit(cs, e.baseRev, rev);
    CatchUpConcat(e.changeset, cs[e.baseRev..rev], cs[rev..]);
  }

  lemma CommittedAtHead(t: string, s: Session, s': Session)
    requires Agrees(t, s) && s.pending.Some? && Sound(s.pending.value)
    requires Enabled(s, CommitPending) && s' == Step(s, CommitPending) && WellFormed(s'.doc)
    ensures CommittedAt(s', |s.doc.log|)
  {
    PendingAccepted(t, s);
    var e, q, rev := s.pending.value, |s.doc.log|, s.client.serverRev;
    assert s'.client == s.client;
    assert s'.doc.log == s.doc.log + [Revision(q, ApplyEntry(s.doc, e).outcome.cPrime, e.clientId)];
    assert e.clientId == s.client.id && NoneMine(s, rev) && 0 <= rev <= q;
    hide Step, Enabled, Agrees, ApplyEntry, CatchUp, CommittedIn;
    CommittedInHead(s.doc.log, s.client.id, s.client.X, rev, s'.doc.log[q]);
  }

  lemma CommitPendingAgrees(t: string, s: Session)
    requires Agrees(t, s) && Enabled(s, CommitPending)
    ensures Agrees(t, Step(s, CommitPending))
  {
    var s' := Step(s, CommitPending);
    InStepAfterCommit(t, s, s.pending.value);
    CommittedAtHead(t, s, s');
    PendingAccepted(t, s);
    hide InStep, CommittedAt, NoneMine, CatchUp;
  }

  // ------------------------------------------------------------ delivery

  lemma NextText(t: string, d: Doc, rev: nat)
    requires Replays(t, d) && rev < |d.log|
    ensures var c := d.log[rev].changeset;
            && Valid(c) && c.oldLen == |TextAt(t, d, rev)|
            && TextAt(t, d, rev + 1) == Run(TextAt(t, d, rev), c.ops)
  {
    hide Run;
    var cs := Changes(d.log);
    ChainSplit(t, cs, rev + 1);
    PrefixSnoc(cs, rev);
    ChainConcat(t, cs[..rev], [cs[rev]]);
    ChainOne(TextAt(t, d, rev), cs[rev]);
  }

  /** Delivery is always possible while the client is behind. */
  lemma BehindMeansEnabled(t: string, s: Session)
    requires Agrees(t, s) && s.client.serverRev < s.doc.headRev
    ensures Enabled(s, Deliver)
  {
    NextText(t, s.doc, s.client.serverRev);
  }

  lemma InStepAfterBroadcast(t: string, s: Session)
    requires InStep(t, s) && Enabled(s, Deliver) && s.doc.log[s.client.serverRev].source != s.client.id
    ensures InStep(t, Step(s, Deliver))
  {
    NextText(t, s.doc, s.client.serverRev);
    hide Run, Replays, TextAt, Follow, Consistent, Broadcast;
  }

  /** What a broadcast changes, seen from outside the client. */
  lemma BroadcastEffect(s: Session)
    requires Enabled(s, Deliver) && s.doc.log[s.client.serverRev].source != s.client.id
    ensures var s', rev := Step(s, Deliver), s.client.serverRev;
            && s'.doc == s.doc && s'.pending == s.pending && WellFormed(s.doc)
            && s'.client.serverRev == rev + 1 && s'.client.X == Follow(Changes(s.doc.log)[rev], s.client.X)
            && s'.client.id == s.client.id && s'.client.nextSubmissionId == s.client.nextSubmissionId
            && s'.client.waitingForAck == s.client.waitingForAck
            && 0 <= rev < |s.doc.log| && Positive(s.client.X.ops)
  {
    hide Broadcast, Follow;
  }

  lemma WaitsAfterBroadcast(t: string, s: Session, s': Session)
    requires InStep(t, s) && Enabled(s, Deliver) && s.doc.log[s.client.serverRev].source != s.client.id
    requires s.pending.Some? && Waits(t, s) && s' == Step(s, Deliver) && InStep(t, s')
    ensures Waits(t, s')
  {
    BroadcastEffect(s);
    var e, cs, rev := s.pending.value, Changes(s.doc.log), s.client.serverRev;
    assert 0 <= e.baseRev <= rev + 1 <= |s.doc.log|;
    TracksNext(e, s.client.X, cs, rev);
    hide Run, Replays, TextAt, Follow, Consistent, InStep, Enabled, Step, Tracks;
  }

  lemma CommittedAtAfterBroadcast(s: Session, q: nat)
    requires Enabled(s, Deliver) && s.doc.log[s.client.serverRev].source != s.client.id
    requires CommittedAt(s, q)
    ensures CommittedAt(Step(s, Deliver), q)
  {
    BroadcastEffect(s);
    hide Run, CatchUp, Follow, Consistent, Step, Enabled, CommittedIn;
    CommittedInNext(s.doc.log, s.client.id, s.client.X, s.client.serverRev, q);
  }

  lemma DeliverBroadcastAgrees(t: string, s: Session)
    requires Agrees(t, s) && Enabled(s, Deliver)
    requires s.doc.log[s.client.serverRev].source != s.client.id
    ensures Agrees(t, Step(s, Deliver))
  {
    InStepAfterBroadcast(t, s);
    hide InStep, Waits, CommittedAt, Consistent, Broadcast, Acknowledge;
    if s.pending.Some? {
      WaitsAfterBroadcast(t, s, Step(s, Deliver));
    } else if s.client.waitingForAck {
      var q :| CommittedAt(s, q);
      CommittedAtAfterBroadcast(s, q);
    }
  }

  /** At the acknowledgement X is structurally the committed revision, so A . X is its text. */
  lemma AckedRevisionIsX(t: string, s: Session)
    requires Agrees(t, s) && Enabled(s, Deliver)
    requires s.doc.log[s.client.serverRev].source == s.client.id
    ensures s.client.X == s.doc.log[s.client.serverRev].changeset
    ensures s.client.waitingForAck && s.pending.None?
    ensures NoneMine(s, s.client.serverRev + 1)
    ensures Submitted(s.client) == TextAt(t, s.doc, s.client.serverRev + 1)
  {
    var rev := s.client.serverRev;
    assert s.client.waitingForAck && s.pending.None?;
    NextText(t, s.doc, rev);
    hide Run, TextAt, Replays;
    var q :| CommittedAt(s, q);
    assert q == rev;
    assert Changes(s.doc.log)[rev..rev] == [];
  }

  lemma DeliverAckAgrees(t: string, s: Session)
    requires Agrees(t, s) && Enabled(s, Deliver)
    requires s.doc.log[s.client.serverRev].source == s.client.id
    ensures Agrees(t, Step(s, Deliver))
  {
    AckedRevisionIsX(t, s);
    hide Run, TextAt, Replays, Submitted, Consistent, Acknowledge;
    ReplaysWellFormed(t, s.doc);
  }

  // ------------------------------------------------------------ typing and submitting

  lemma LocalAgrees(t: string, s: Session, ev: Event)
    requires Agrees(t, s) && Enabled(s, ev) && (ev.Type? || ev.Tick?)
    ensures Agrees(t, Step(s, ev))
  {
    var s' := Step(s, ev);
    if ev.Tick? && Submit(s.client).sent.Some? {
      var rev := s.client.serverRev;
      assert Changes(s.doc.log)[rev..rev] == [];
      assert Waits(t, s');
    } else if s.client.waitingForAck && s.pending.None? {
      var q :| CommittedAt(s, q);
      assert CommittedAt(s', q);
    }
  }

  lemma StartAgrees(t: string, s: Session)
    requires Start(t, s)
    ensures Agrees(t, s)
  {
    var cs := Changes(s.doc.log);
    Whole(cs);
  }

  lemma StepAgrees(t: string, s: Session, ev: Event)
    requires Agrees(t, s) && Enabled(s, ev)
    ensures Agrees(t, Step(s, ev))
  {
    hide Agrees, Step;
    match ev {
      case Type(_) => LocalAgrees(t, s, ev);
      case Tick => LocalAgrees(t, s, ev);
      case CommitPending => CommitPendingAgrees(t, s);
      case CommitOther(e) => CommitOtherAgrees(t, s, e);
      case Deliver =>
        if s.doc.log[s.client.serverRev].source == s.client.id {
          DeliverAckAgrees(t, s);
        } else {
          DeliverBroadcastAgrees(t, s);
        }
    }
  }

  /** The states of a run, one event after another. */
  ghost predicate IsRun(states: seq<Session>, events: seq<Event>) {
    && |states| == |events| + 1
    && forall i :: 0 <= i < |events| ==> Enabled(states[i], events[i]) && states[i + 1] == Step(states[i], events[i])
  }

  /** Client and server agree in every state of every run. */
  lemma {:induction false} RunAgrees(t: string, states: seq<Session>, events: seq<Event>, k: nat)
    requires IsRun(states, events) && Start(t, states[0]) && k < |states|
    ensures Agrees(t, states[k])
    ensures states[k].client.baseText == TextAt(t, states[k].doc, states[k].client.serverRev)
    ensures states[k].client.serverRev == states[k].doc.headRev ==> states[k].client.baseText == states[k].doc.headText
    decreases k
  {
    if k == 0 {
      StartAgrees(t, states[0]);
    } else {
      RunAgrees(t, states, events, k - 1);
      hide Step, Start;
      StepAgrees(t, states[k - 1], events[k - 1]);
    }
    HeadTextAt(t, states[k].doc);
  }

  /** A client that has heard everything, has nothing outstanding and nothing to submit shows the head. */
  lemma QuietClientShowsHead(t: string, states: seq<Session>, events: seq<Event>, k: nat)
    requires IsRun(states, events) && Start(t, states[0]) && k < |states|
    requires states[k].client.serverRev == states[k].doc.headRev && !states[k].client.waitingForAck
    ensures Consistent(states[k].client)
    ensures Submit(states[k].client).sent.None? <==> states[k].client.editor == states[k].doc.headText
  {
    hide IsRun, Start, Submit;
    RunAgrees(t, states, events, k);
    SubmitsExactlyTheDifference(states[k].client);
  }
}
