/** Raft's safety properties over whole runs, with message loss, duplication, reordering and crashes. */
module RaftRuns {
  import opened Options
  import DocumentFsm
  import opened RaftServer
  import opened RaftSystem
  import opened RaftInvariant
  import opened RaftSafety
  import opened RaftSteps
  import opened RaftLeaders
  import opened RaftTransitions

  // ------------------------------------------------------------ the invariant holds throughout

  lemma NextKeepsInv(sys: Sys, sys': Sys)
    requires Inv(sys) && Next(sys, sys')
    ensures Inv(sys')
  {
    hide Inv, Timeout, HandleVoteStep, VoteReplyStep, Win, LeaderAppend, SendAppend, HandleAppendStep,
         AppendReplyDeposes, AppendReplyStep, ApplyStep, Crash, CrashInPersist, CrashInHandler, CrashInAppend;
    if s :| Timeout(sys, sys', s) {
      TimeoutKeeps(sys, sys', s);
    } else if m :| HandleVoteStep(sys, sys', m) {
      HandleVoteKeeps(sys, sys', m);
    } else if m :| VoteReplyStep(sys, sys', m) {
      DeposedKeeps(sys, sys', m);
    } else if s, q :| Win(sys, sys', s, q) {
      WinKeeps(sys, sys', s, q);
    } else if s, data :| LeaderAppend(sys, sys', s, data) {
      LeaderAppendKeeps(sys, sys', s, data);
    } else if s, p :| SendAppend(sys, sys', s, p) {
      SendAppendKeeps(sys, sys', s, p);
    } else if m :| HandleAppendStep(sys, sys', m) {
      HandleAppendKeeps(sys, sys', m);
    } else if m :| AppendReplyDeposes(sys, sys', m) {
      DeposedKeeps(sys, sys', m);
    } else if m :| AppendReplyStep(sys, sys', m) {
      AppendReplyKeeps(sys, sys', m);
    } else if s :| ApplyStep(sys, sys', s) {
      ApplyKeeps(sys, sys', s);
    } else if s :| Crash(sys, sys', s) {
      CrashKeeps(sys, sys', s);
    } else if s, term :| CrashInPersist(sys, sys', s, term) {
      CrashInPersistKeeps(sys, sys', s, term);
    } else if m :| CrashInHandler(sys, sys', m) {
      CrashInHandlerKeeps(sys, sys', m);
    } else {
      var m, cut :| CrashInAppend(sys, sys', m, cut);
      CrashInAppendKeeps(sys, sys', m, cut);
    }
  }

  lemma DeposedKeeps(sys: Sys, sys': Sys, m: Message)
    requires Inv(sys) && (VoteReplyStep(sys, sys', m) || AppendReplyDeposes(sys, sys', m))
    ensures Inv(sys')
  {
    hide Inv;
    StepDownKeeps(sys, m.to, if VoteReplyStep(sys, sys', m) then m.voted.term else m.appended.term);
  }

  lemma CrashKeeps(sys: Sys, sys': Sys, s: nat)
    requires Inv(sys) && Crash(sys, sys', s)
    ensures Inv(sys')
  {
    hide Inv;
    RestartKeeps(sys, s, sys.servers[s].term);
  }

  lemma CrashInPersistKeeps(sys: Sys, sys': Sys, s: nat, term: nat)
    requires Inv(sys) && CrashInPersist(sys, sys', s, term)
    ensures Inv(sys')
  {
    hide Inv;
    RestartKeeps(sys, s, term);
  }

  lemma {:induction false} ExecutionInv(run: seq<Sys>, i: nat)
    requires IsExecution(run) && i < |run|
    ensures Inv(run[i])
  {
    hide Inv, Next, Init;
    if i == 0 {
      InitInv(run[0]);
    } else {
      ExecutionInv(run, i - 1);
      NextKeepsInv(run[i - 1], run[i - 1 + 1]);
    }
  }

  // ------------------------------------------------------------ what is recorded stays recorded

  ghost predicate Later(sys: Sys, sys': Sys) {
    && Extends(sys.history, sys'.history)
    && (forall t :: t in sys.elections ==> t in sys'.elections && sys'.elections[t] == sys.elections[t])
    && sys.commits <= sys'.commits && sys.applied <= sys'.applied
    && |sys.servers| == |sys'.servers|
  }

  ghost predicate SameHistory(sys: Sys, sys': Sys) {
    && sys'.history == sys.history && sys'.elections == sys.elections
    && sys.commits <= sys'.commits && sys.applied <= sys'.applied && |sys.servers| == |sys'.servers|
  }

  lemma WinIsLater(sys: Sys, sys': Sys, s: nat, q: set<nat>)
    requires Inv(sys) && Win(sys, sys', s, q)
    ensures Later(sys, sys')
  {
    hide Inv, WonBy;
    NewTermIsFree(sys, s, q);
  }

  lemma LeaderAppendIsLater(sys: Sys, sys': Sys, s: nat, data: Option<DocumentFsm.Submission>)
    requires Inv(sys) && LeaderAppend(sys, sys', s, data)
    ensures Later(sys, sys')
  {
    hide ServersInv, AcksInv, VotesInv, ElectionsInv, MessagesInv, AppliedInv, CommitsInv, HistoryInv;
    LeaderLog(sys, s);
  }

  lemma TimeoutKeepsHistory(sys: Sys, sys': Sys, s: nat)
    requires Timeout(sys, sys', s)
    ensures SameHistory(sys, sys')
  {
    hide StartElection, ElectionRequest, Others;
  }

  lemma HandleVoteKeepsHistory(sys: Sys, sys': Sys, m: Message)
    requires HandleVoteStep(sys, sys', m)
    ensures SameHistory(sys, sys')
  {
    hide HandleVote;
  }

  lemma VoteReplyKeepsHistory(sys: Sys, sys': Sys, m: Message)
    requires VoteReplyStep(sys, sys', m)
    ensures SameHistory(sys, sys')
  {
    hide StepDown;
  }

  lemma AppendStepsKeepHistory(sys: Sys, sys': Sys)
    requires (exists s, p :: SendAppend(sys, sys', s, p)) || (exists m :: HandleAppendStep(sys, sys', m))
    ensures SameHistory(sys, sys')
  {
    hide HandleAppend, BuildAppend;
  }

  lemma ReplyStepsKeepHistory(sys: Sys, sys': Sys)
    requires (exists m :: AppendReplyDeposes(sys, sys', m)) || (exists m :: AppendReplyStep(sys, sys', m))
    ensures SameHistory(sys, sys')
  {
    hide HandleAppendResp, StepDown;
  }

  lemma CrashesKeepHistory(sys: Sys, sys': Sys)
    requires (exists s :: Crash(sys, sys', s)) || (exists s, term :: CrashInPersist(sys, sys', s, term))
             || (exists m, cut :: CrashInAppend(sys, sys', m, cut))
    ensures SameHistory(sys, sys')
  {
    hide Matches, FirstConflict, Restarted, Submit, Reachable;
  }

  lemma HandlerCrashKeepsHistory(sys: Sys, sys': Sys, m: Message)
    requires CrashInHandler(sys, sys', m)
    ensures SameHistory(sys, sys')
  {
    hide Restarted, Submit, SeeTerm;
  }

  /** Only winning and appending as leader touch elections and leaders' logs. */
  lemma OtherStepsKeepHistory(sys: Sys, sys': Sys)
    requires Next(sys, sys')
    requires !(exists s, q :: Win(sys, sys', s, q)) && !(exists s, data :: LeaderAppend(sys, sys', s, data))
    ensures SameHistory(sys, sys')
  {
    hide Timeout, HandleVoteStep, VoteReplyStep, Win, LeaderAppend, SendAppend, HandleAppendStep,
         AppendReplyDeposes, AppendReplyStep, Crash, CrashInPersist, CrashInHandler, CrashInAppend;
    if (exists s, p :: SendAppend(sys, sys', s, p)) || (exists m :: HandleAppendStep(sys, sys', m)) {
      AppendStepsKeepHistory(sys, sys');
    } else if (exists m :: AppendReplyDeposes(sys, sys', m)) || (exists m :: AppendReplyStep(sys, sys', m)) {
      ReplyStepsKeepHistory(sys, sys');
    } else if s :| ApplyStep(sys, sys', s) {
      assert SameHistory(sys, sys');
    } else if (exists s :: Crash(sys, sys', s)) || (exists s, term :: CrashInPersist(sys, sys', s, term))
              || (exists m, cut :: CrashInAppend(sys, sys', m, cut)) {
      CrashesKeepHistory(sys, sys');
    } else if m :| CrashInHandler(sys, sys', m) {
      HandlerCrashKeepsHistory(sys, sys', m);
    } else if s :| Timeout(sys, sys', s) {
      TimeoutKeepsHistory(sys, sys', s);
    } else if m :| HandleVoteStep(sys, sys', m) {
      HandleVoteKeepsHistory(sys, sys', m);
    } else {
      var m :| VoteReplyStep(sys, sys', m);
      VoteReplyKeepsHistory(sys, sys', m);
    }
  }

  lemma NextIsLater(sys: Sys, sys': Sys)
    requires Inv(sys) && Next(sys, sys')
    ensures Later(sys, sys')
  {
    hide Inv, Win, LeaderAppend;
    if s, q :| Win(sys, sys', s, q) {
      WinIsLater(sys, sys', s, q);
    } else if s, data :| LeaderAppend(sys, sys', s, data) {
      LeaderAppendIsLater(sys, sys', s, data);
    } else {
      hide Next;
      OtherStepsKeepHistory(sys, sys');
    }
  }

  lemma {:induction false} RunIsLater(run: seq<Sys>, i: nat, j: nat)
    requires IsExecution(run) && i <= j < |run|
    ensures Later(run[i], run[j])
    decreases j - i
  {
    hide Inv, Next, Init;
    if i < j {
      RunIsLater(run, i, j - 1);
      ExecutionInv(run, j - 1);
      NextIsLater(run[j - 1], run[j - 1 + 1]);
      LaterChains(run[i], run[j - 1], run[j]);
    }
  }

  lemma LaterChains(x: Sys, y: Sys, z: Sys)
    requires Later(x, y) && Later(y, z)
    ensures Later(x, z)
  {
  }

  // ------------------------------------------------------------ Election Safety

  lemma LeaderFacts(sys: Sys, s: nat)
    requires Inv(sys) && s < |sys.servers| && sys.servers[s].role.Leader?
    ensures var sv := sys.servers[s];
            && sv.term in sys.elections && sys.elections[sv.term].leader == s
            && sv.term in sys.history && sv.log == sys.history[sv.term] && sys.elections[sv.term].log <= sv.log
  {
    var sv := sys.servers[s];
    assert ServerOk(sys.history, sys.elections, sys.commits, sv, s);
    assert TermOk(sys.history, sys.elections, sv.term);
  }

  /** Two servers that are ever leaders of the same term, at whatever moments of a run, are one server. */
  lemma RunElectionSafety(run: seq<Sys>, i: nat, j: nat, s: nat, r: nat)
    requires IsExecution(run) && i < |run| && j < |run| && s < |run[i].servers| && r < |run[j].servers|
    requires run[i].servers[s].role.Leader? && run[j].servers[r].role.Leader?
    requires run[i].servers[s].term == run[j].servers[r].term
    ensures s == r
  {
    hide Inv, IsExecution;
    ExecutionInv(run, i);
    ExecutionInv(run, j);
    LeaderFacts(run[i], s);
    LeaderFacts(run[j], r);
    if i <= j {
      RunIsLater(run, i, j);
    } else {
      RunIsLater(run, j, i);
    }
  }

  /** Every member of a winning quorum keeps the vote that counted, or has moved on to a later term. */
  lemma RunSupportersStand(run: seq<Sys>, i: nat, t: nat, v: nat)
    requires IsExecution(run) && i < |run| && t in run[i].elections && v in run[i].elections[t].voters
    ensures IsQuorum(run[i].elections[t].voters.Keys, |run[i].servers|) && v < |run[i].servers|
    ensures run[i].servers[v].term > t
            || (run[i].servers[v].term == t && run[i].servers[v].votedFor == Some(run[i].elections[t].leader))
  {
    ExecutionInv(run, i);
    hide IsExecution;
    var sys := run[i];
    assert ElectionOk(sys.history, sys.elections, sys.acks, sys.votes, sys.servers, t);
    hide HistoryInv, ServersInv, AcksInv, VotesInv, ElectionsInv, MessagesInv, CommitsInv, AppliedInv;
    SupporterFacts(sys, t, v);
  }

  // ------------------------------------------------------------ Log Matching

  lemma LaterLog(run: seq<Sys>, i: nat, j: nat, s: nat)
    requires IsExecution(run) && i <= j < |run| && s < |run[i].servers|
    ensures GoodLog(run[j].history, run[i].servers[s].log) && Inv(run[j])
  {
    ExecutionInv(run, i);
    ExecutionInv(run, j);
    RunIsLater(run, i, j);
    assert ServerOk(run[i].history, run[i].elections, run[i].commits, run[i].servers[s], s);
    hide Inv, IsExecution;
    GoodLogExtends(run[i].history, run[j].history, run[i].servers[s].log);
  }

  /** Logs of any two servers at any two moments agree up to wherever their terms agree. */
  lemma RunLogMatching(run: seq<Sys>, i: nat, j: nat, s: nat, r: nat, k: nat)
    requires IsExecution(run) && i < |run| && j < |run| && s < |run[i].servers| && r < |run[j].servers|
    requires k < |run[i].servers[s].log| && k < |run[j].servers[r].log|
    requires run[i].servers[s].log[k].term == run[j].servers[r].log[k].term
    ensures run[i].servers[s].log[..k + 1] == run[j].servers[r].log[..k + 1]
  {
    hide Inv, IsExecution, GoodLog;
    var last := if i <= j then j else i;
    LaterLog(run, i, last, s);
    LaterLog(run, j, last, r);
    LogMatching(run[last].history, run[i].servers[s].log, run[j].servers[r].log, k);
  }

  /** Every log is numbered from 1 without gaps, its terms are positive and never fall. */
  lemma RunLogShape(run: seq<Sys>, i: nat, s: nat, j: nat, k: nat)
    requires IsExecution(run) && i < |run| && s < |run[i].servers| && j <= k < |run[i].servers[s].log|
    ensures var log := run[i].servers[s].log; log[k].index == k + 1 && 1 <= log[j].term <= log[k].term
  {
    ExecutionInv(run, i);
    var h, el, log := run[i].history, run[i].elections, run[i].servers[s].log;
    assert ServerOk(h, el, run[i].commits, run[i].servers[s], s);
    assert EntryOk(h, log, k);
    hide ServersInv, AcksInv, VotesInv, ElectionsInv, MessagesInv, CommitsInv, AppliedInv;
    TermsNondecreasing(h, el, log, j, k);
  }

  // ------------------------------------------------------------ Leader Completeness

  /** What a server takes as committed was, and stays, committed. */
  lemma CommittedStays(run: seq<Sys>, i: nat, j: nat, s: nat)
    requires IsExecution(run) && i <= j < |run| && s < |run[i].servers|
    ensures var sv := run[i].servers[s];
            sv.commitIndex <= |sv.log| && CommittedPrefix(run[j].history, run[j].commits, sv.log[..sv.commitIndex],
              sv.term)
  {
    ExecutionInv(run, i);
    RunIsLater(run, i, j);
    var sv := run[i].servers[s];
    assert ServerOk(run[i].history, run[i].elections, run[i].commits, sv, s);
    hide Inv, IsExecution;
    CommittedPrefixExtends(run[i].history, run[j].history, run[i].commits, run[j].commits, sv.log[..sv.commitIndex],
      sv.term, sv.term);
  }

  /** A leader elected after a commit had the committed entries when it was elected. */
  lemma ElectedWithCommitted(sys: Sys, p: Log, t: nat, u: nat)
    requires Inv(sys) && u in sys.elections && t < u && CommittedPrefix(sys.history, sys.commits, p, t)
    ensures p <= sys.elections[u].log
  {
    hide ServersInv, AcksInv, VotesInv, ElectionsInv, MessagesInv, AppliedInv, HistoryInv;
    if p != [] {
      var c :| c in sys.commits && c.term <= t && CoveredBy(sys.history, p, c);
      assert CommitOk(sys.history, sys.acks, |sys.servers|, c);
      hide CommitsInv;
      LeaderCompleteness(sys, c.term, c.index, u);
    }
  }

  /** Whatever any server has committed in a term, at any moment, is in the log of every leader of a later term. */
  lemma RunLeaderCompleteness(run: seq<Sys>, i: nat, j: nat, s: nat, r: nat)
    requires IsExecution(run) && i < |run| && j < |run| && s < |run[i].servers| && r < |run[j].servers|
    requires run[j].servers[r].role.Leader? && run[i].servers[s].term < run[j].servers[r].term
    ensures var sv := run[i].servers[s];
            sv.commitIndex <= |sv.log| && sv.log[..sv.commitIndex] <= run[j].servers[r].log
  {
    hide Inv, IsExecution, CommittedPrefix;
    var last, u, sv := if i <= j then j else i, run[j].servers[r].term, run[i].servers[s];
    ExecutionInv(run, j);
    ExecutionInv(run, last);
    LeaderFacts(run[j], r);
    RunIsLater(run, j, last);
    CommittedStays(run, i, last, s);
    ElectedWithCommitted(run[last], sv.log[..sv.commitIndex], sv.term, u);
  }

  /** At any moment a leader holds everything committed by servers that are not ahead of its term. */
  lemma LeaderHoldsCommitted(run: seq<Sys>, i: nat, s: nat, r: nat)
    requires IsExecution(run) && i < |run| && s < |run[i].servers| && r < |run[i].servers|
    requires run[i].servers[r].role.Leader? && run[i].servers[s].term <= run[i].servers[r].term
    ensures var sv := run[i].servers[s];
            sv.commitIndex <= |sv.log| && sv.log[..sv.commitIndex] <= run[i].servers[r].log
  {
    hide IsExecution, CommittedPrefix, HistoryInv, ServersInv, AcksInv, VotesInv, ElectionsInv, MessagesInv, AppliedInv,
         CommitsInv;
    var sys, sv, u := run[i], run[i].servers[s], run[i].servers[r].term;
    ExecutionInv(run, i);
    LeaderFacts(sys, r);
    CommittedStays(run, i, i, s);
    var p := sv.log[..sv.commitIndex];
    CommittedLater(sys, p, sv.term, u);
    LeaderHasCommitted(sys, p, u);
  }

  lemma CommittedLater(sys: Sys, p: Log, t: nat, u: nat)
    requires CommittedPrefix(sys.history, sys.commits, p, t) && t <= u
    ensures CommittedPrefix(sys.history, sys.commits, p, u)
  {
  }

  // ------------------------------------------------------------ State Machine Safety

  lemma CommittedPrefixesAgree(sys: Sys, x: Log, y: Log, t: nat, u: nat)
    requires Inv(sys) && CommittedPrefix(sys.history, sys.commits, x, t)
             && CommittedPrefix(sys.history, sys.commits, y, u)
    ensures x <= y || y <= x
  {
    hide HistoryInv, ServersInv, AcksInv, VotesInv, ElectionsInv, MessagesInv, AppliedInv, CommitsInv;
    if x != [] && y != [] {
      var h := sys.history;
      var c :| c in sys.commits && c.term <= t && CoveredBy(h, x, c);
      var d :| d in sys.commits && d.term <= u && CoveredBy(h, y, d);
      CommitsAgree(sys, c, d);
      var cx, dy := h[c.term][..c.index], h[d.term][..d.index];
      BothPrefixes(x, y, if cx <= dy then dy else cx);
    }
  }

  /** Of the committed logs of any two servers at any two moments of a run, one is a prefix of the other. */
  lemma RunCommittedLogsAgree(run: seq<Sys>, i: nat, j: nat, s: nat, r: nat)
    requires IsExecution(run) && i < |run| && j < |run| && s < |run[i].servers| && r < |run[j].servers|
    ensures var a, b := run[i].servers[s], run[j].servers[r];
            && a.commitIndex <= |a.log| && b.commitIndex <= |b.log|
            && (a.log[..a.commitIndex] <= b.log[..b.commitIndex] || b.log[..b.commitIndex] <= a.log[..a.commitIndex])
  {
    hide Inv, IsExecution, CommittedPrefix;
    var a, b, last := run[i].servers[s], run[j].servers[r], if i <= j then j else i;
    ExecutionInv(run, last);
    CommittedStays(run, i, last, s);
    CommittedStays(run, j, last, r);
    CommittedPrefixesAgree(run[last], a.log[..a.commitIndex], b.log[..b.commitIndex], a.term, b.term);
  }

  /** No two servers ever apply different entries at one index. */
  lemma RunStateMachineSafety(run: seq<Sys>, i: nat, j: nat, e: Entry, f: Entry)
    requires IsExecution(run) && i < |run| && j < |run|
    requires e in run[i].applied && f in run[j].applied && e.index == f.index
    ensures e == f
  {
    hide Inv, IsExecution;
    var last := if i <= j then j else i;
    RunIsLater(run, i, last);
    RunIsLater(run, j, last);
    ExecutionInv(run, last);
    StateMachineSafety(run[last], e, f);
  }
}
