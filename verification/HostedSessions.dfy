/** Client sessions served by the cluster: a browser and the server it is connected to, in one run. */
module HostedSessions {
  import opened Options
  import opened DocumentFsm
  import opened Clients
  import opened Sessions
  import opened RaftSystem
  import opened ReplicatedDocument

  /** The session's document is the one server `r` has at moment `i` of the cluster's run. */
  ghost predicate HostedAt(run: seq<Sys>, text: string, s: Session, r: nat, i: nat) {
    SoundRun(run) && i < |run| && r < |run[i].servers| && s.doc == DocumentAt(run, i, r, text)
  }

  /** The commit event a session sees when its server applies `e`. */
  function CommitOf(s: Session, e: Submission): Event {
    if s.pending == Some(e) then CommitPending else CommitOther(e)
  }

  /** Either the browser moves, or the cluster takes a step. */
  datatype Move = Browser(event: Event) | Cluster

  /** What server `r` feeds its state machine at the step from `i`, if anything. */
  function Fed(run: seq<Sys>, r: nat, i: nat): (e: Option<Submission>)
    requires i + 1 < |run| && r < |run[i].servers| && r < |run[i + 1].servers|
  {
    var was, now := run[i].servers[r].lastApplied, run[i + 1].servers[r];
    if now.lastApplied == was + 1 <= |now.log| then now.log[was].data else None
  }

  /** The server is up throughout the step from `i`: a restart forgets what was applied. */
  predicate StaysUp(run: seq<Sys>, r: nat, i: nat) {
    && i + 1 < |run| && r < |run[i].servers| && r < |run[i + 1].servers|
    && run[i].servers[r].lastApplied <= run[i + 1].servers[r].lastApplied
  }

  /**
   * One move of browser and cluster together. The document advances exactly when the server applies
   * a submission; under the client's own id that is the one it has outstanding.
   */
  ghost predicate JointStep(run: seq<Sys>, r: nat, s: Session, i: nat, mv: Move, s': Session, i': nat) {
    match mv
    case Browser(ev) => !ev.CommitPending? && !ev.CommitOther? && Enabled(s, ev) && s' == Step(s, ev) && i' == i
    case Cluster =>
      && StaysUp(run, r, i) && i' == i + 1
      && match Fed(run, r, i)
         case None => s' == s
         case Some(e) =>
           && (e.clientId == s.client.id ==> s.pending == Some(e))
           && Enabled(s, CommitOf(s, e)) && s' == Step(s, CommitOf(s, e))
  }

  /** The browser connects to the head of server `r` at moment `at[0]`, and both go on from there. */
  ghost predicate JointRun(run: seq<Sys>, text: string, r: nat, states: seq<Session>, at: seq<nat>, moves: seq<Move>) {
    && SoundRun(run) && |states| == |at| == |moves| + 1
    && Start(text, states[0]) && HostedAt(run, text, states[0], r, at[0])
    && forall k :: 0 <= k < |moves| ==> JointStep(run, r, states[k], at[k], moves[k], states[k + 1], at[k + 1])
  }

  // ------------------------------------------------------------ the session stays hosted

  lemma ClusterStepHosts(run: seq<Sys>, text: string, r: nat, s: Session, i: nat, s': Session, i': nat)
    requires HostedAt(run, text, s, r, i) && JointStep(run, r, s, i, Cluster, s', i')
    ensures HostedAt(run, text, s', r, i')
  {
    hide ApplyEntry, Next, Init, SoundStep;
    LogSound(run, i + 1, r);
    NextApplied(run[i], run[i + 1], r);
  }

  lemma BrowserStepHosts(run: seq<Sys>, text: string, r: nat, s: Session, i: nat, ev: Event, s': Session, i': nat)
    requires HostedAt(run, text, s, r, i) && JointStep(run, r, s, i, Browser(ev), s', i')
    ensures HostedAt(run, text, s', r, i')
  {
    hide SoundRun, DocumentAt, Broadcast, Acknowledge, Submit;
  }

  lemma JointStepAgrees(run: seq<Sys>, text: string, r: nat, s: Session, i: nat, mv: Move, s': Session, i': nat)
    requires Agrees(text, s) && JointStep(run, r, s, i, mv, s', i')
    ensures Agrees(text, s')
  {
    hide Agrees, Enabled, Step;
    match mv {
      case Browser(ev) => StepAgrees(text, s, ev);
      case Cluster =>
        match Fed(run, r, i) {
          case None =>
          case Some(e) => StepAgrees(text, s, CommitOf(s, e));
        }
    }
  }

  /** At every point of the joint run the session works on its server's document, and agrees with it. */
  lemma {:induction false} JointRunHosts(
    run: seq<Sys>, text: string, r: nat, states: seq<Session>, at: seq<nat>, moves: seq<Move>, k: nat)
    requires JointRun(run, text, r, states, at, moves) && k < |states|
    ensures HostedAt(run, text, states[k], r, at[k]) && Agrees(text, states[k])
  {
    hide SoundRun, Start, HostedAt, JointStep, Agrees;
    if k == 0 {
      StartAgrees(text, states[0]);
    } else {
      JointRunHosts(run, text, r, states, at, moves, k - 1);
      var s, i, mv := states[k - 1], at[k - 1], moves[k - 1];
      assert JointStep(run, r, s, i, mv, states[k - 1 + 1], at[k - 1 + 1]);
      JointStepAgrees(run, text, r, s, i, mv, states[k], at[k]);
      match mv {
        case Browser(ev) => BrowserStepHosts(run, text, r, s, i, ev, states[k], at[k]);
        case Cluster => ClusterStepHosts(run, text, r, s, i, states[k], at[k]);
      }
    }
  }

  /** Whatever the server applies, the session can take; only the client's own id is left to assume. */
  lemma AppliedIsEnabled(run: seq<Sys>, text: string, r: nat, s: Session, i: nat)
    requires HostedAt(run, text, s, r, i) && Agrees(text, s) && StaysUp(run, r, i)
    requires Fed(run, r, i).Some?
    requires Fed(run, r, i).value.clientId == s.client.id ==> s.pending == Fed(run, r, i)
    ensures Enabled(s, CommitOf(s, Fed(run, r, i).value))
  {
    hide SoundRun, DocumentAt, Waits, CommittedAt, TextAt, Consistent;
    LogSound(run, i + 1, r);
    ReplaysWellFormed(text, s.doc);
  }

  // ------------------------------------------------------------ agreement with every server

  /** Of two documents of one history, texts at a revision both have are equal. */
  lemma SameTextAt(text: string, d: Doc, e: Doc, rev: nat)
    requires Replays(text, d) && Replays(text, e) && (d.log <= e.log || e.log <= d.log)
    requires rev <= |d.log| && rev <= |e.log|
    ensures TextAt(text, d, rev) == TextAt(text, e, rev)
  {
    hide Replays, TextAt;
    if d.log <= e.log {
      TextAtStable(text, d, e, rev);
    } else {
      TextAtStable(text, e, d, rev);
    }
  }

  /** What a hosted document says of a revision, every server that has come so far says too. */
  lemma HostedTextEverywhere(run: seq<Sys>, text: string, s: Session, r: nat, i: nat, q: nat, j: nat, rev: nat)
    requires HostedAt(run, text, s, r, i) && Replays(text, s.doc) && rev <= |s.doc.log|
    requires j < |run| && q < |run[j].servers|
    ensures var d := DocumentAt(run, j, q, text);
            && Replays(text, d) && (rev <= |d.log| ==> TextAt(text, d, rev) == TextAt(text, s.doc, rev))
  {
    hide SoundRun, DocumentAt, Replays, TextAt;
    DocumentsAgree(run, i, j, r, q, text);
    if rev <= |DocumentAt(run, j, q, text).log| {
      SameTextAt(text, s.doc, DocumentAt(run, j, q, text), rev);
    }
  }

  /**
   * In every state of a joint run the client's confirmed text is the text at its revision on every
   * server of the cluster, at every moment at which that server has come so far.
   */
  lemma ClientAgreesWithCluster(
    run: seq<Sys>, text: string, r: nat, states: seq<Session>, at: seq<nat>, moves: seq<Move>, k: nat, q: nat, j: nat)
    requires JointRun(run, text, r, states, at, moves) && k < |states| && j < |run| && q < |run[j].servers|
    ensures var c, d := states[k].client, DocumentAt(run, j, q, text);
            && Replays(text, d) && c.serverRev >= 0
            && (c.serverRev <= |d.log| ==> c.baseText == TextAt(text, d, c.serverRev))
  {
    hide JointRun, SoundRun, DocumentAt, Replays, TextAt;
    JointIsSound(run, text, r, states, at, moves);
    JointRunHosts(run, text, r, states, at, moves, k);
    ReplaysWellFormed(text, states[k].doc);
    HostedTextEverywhere(run, text, states[k], r, at[k], q, j, states[k].client.serverRev);
  }

  lemma JointIsSound(run: seq<Sys>, text: string, r: nat, states: seq<Session>, at: seq<nat>, moves: seq<Move>)
    requires JointRun(run, text, r, states, at, moves)
    ensures SoundRun(run) && |states| == |at| == |moves| + 1
  {
  }

  /** At the acknowledgement, what the client submitted is the text of that revision on every such server. */
  lemma AckedOnEveryServer(
    run: seq<Sys>, text: string, r: nat, states: seq<Session>, at: seq<nat>, moves: seq<Move>, k: nat, q: nat, j: nat)
    requires JointRun(run, text, r, states, at, moves) && k < |states| && j < |run| && q < |run[j].servers|
    requires Enabled(states[k], Deliver)
    requires states[k].doc.log[states[k].client.serverRev].source == states[k].client.id
    ensures var c, d := states[k].client, DocumentAt(run, j, q, text);
            && Replays(text, d)
            && (c.serverRev < |d.log| ==> Submitted(c) == TextAt(text, d, c.serverRev + 1))
  {
    hide JointRun, SoundRun, DocumentAt, Replays, TextAt, Submitted;
    JointIsSound(run, text, r, states, at, moves);
    JointRunHosts(run, text, r, states, at, moves, k);
    ReplaysWellFormed(text, states[k].doc);
    AckedRevisionIsX(text, states[k]);
    HostedTextEverywhere(run, text, states[k], r, at[k], q, j, states[k].client.serverRev + 1);
  }
}
