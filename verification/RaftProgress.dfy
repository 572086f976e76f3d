/** What moves forward: a leader's view of its peers, commit indexes, and what has been applied. */
module RaftProgress {
  import opened RaftServer
  import opened RaftSystem
  import opened RaftInvariant
  import opened RaftSteps
  import opened RaftQuorum
  import opened RaftRuns
  import opened RaftOrigins
  import opened RaftReplication

  // ------------------------------------------------------------ a new leader

  /** The first request to `p` is empty and asks about the leader's last entry. */
  ghost predicate StartsAtTheEnd(sys: Sys, sys': Sys, s: nat, p: nat) {
    && s < |sys.servers| == |sys'.servers|
    && var sv := sys'.servers[s];
       && sv.role.Leader? && sv.log == sys.servers[s].log
       && p in sv.peers && sv.peers[p].nextIndex >= 1 && MatchOf(sv, s, p) == 0
       && var req := BuildAppend(sv, s, sv.peers[p]);
          req.prevIndex == |sv.log| && req.prevTerm == LastTerm(sv.log) && req.entries == []
  }

  lemma WinnerStarts(sys: Sys, sys': Sys, s: nat, q: set<nat>, p: nat)
    requires Win(sys, sys', s, q) && p < |sys.servers| && p != s
    ensures StartsAtTheEnd(sys, sys', s, p)
  {
    hide IsQuorum, GrantedBy;
    FreshPeerStarts(sys.servers[s], s, |sys.servers|, p);
  }

  lemma FreshPeerStarts(sv: Server, s: nat, size: nat, p: nat)
    requires p < size && p != s
    ensures var r := BecomeLeader(sv, s, size);
            && p in r.peers && r.peers[p] == Peer(|sv.log| + 1, 0)
            && BuildAppend(r, s, r.peers[p]).entries == []
  {
  }

  /** In every run a new leader starts at its end, with nothing taken for replicated. */
  lemma RunWinnerStartsAtTheEnd(run: seq<Sys>, i: nat, s: nat, q: set<nat>, p: nat)
    requires IsExecution(run) && i + 1 < |run| && Win(run[i], run[i + 1], s, q)
    requires p < |run[i].servers| && p != s
    ensures StartsAtTheEnd(run[i], run[i + 1], s, p)
  {
    hide IsExecution, Win, StartsAtTheEnd;
    WinnerStarts(run[i], run[i + 1], s, q, p);
  }

  // ------------------------------------------------------------ a success

  lemma SuccessMoves(before: Server, self: nat, size: nat, p: nat, req: AppendReq, resp: AppendResp)
    requires size > 0 && p in before.peers && p != self && resp.success && req.entries != []
    ensures var after := HandleAppendResp(before, self, size, p, req, resp);
            var end := req.prevIndex + |req.entries|;
            && after.log == before.log && after.peers == before.peers[p := Peer(end + 1, end)]
            && MatchOf(after, self, p) == end
            && (end <= |before.log| ==>
                  var next := BuildAppend(after, self, after.peers[p]);
                  next.prevIndex == end && next.entries == before.log[end..])
  {
    hide QuorumIndex;
  }

  /**
   * When a leader hears that a request was taken in, its next request to that server carries exactly
   * what has been appended since that request was built.
   */
  lemma RunSuccessMovesOn(run: seq<Sys>, j: nat, m: Message) returns (i: nat)
    requires IsExecution(run) && j + 1 < |run| && AppendReplyStep(run[j], run[j + 1], m)
    requires m.appended.success && m.append.entries != []
    ensures i < j && AskedAt(run, i, m.to, m.from, m.append)
    ensures var was, now := run[i].servers[m.to].log, run[j + 1].servers[m.to];
            && was <= now.log == run[j].servers[m.to].log
            && m.from in now.peers && now.peers[m.from].nextIndex >= 1 && MatchOf(now, m.to, m.from) == |was|
            && var next := BuildAppend(now, m.to, now.peers[m.from]);
               next.prevIndex == |was| && was + next.entries == now.log
  {
    hide IsExecution, Inv, HandleAppendResp, Answers;
    i := RunReplyWasGiven(run, j, m);
    AnsweredAsk(run[i], m);
    i := RunRequestWasSent(run, i, AskAppend(m.to, m.from, m.append));
    var before := run[j].servers[m.to];
    ExecutionInv(run, i);
    LeaderFacts(run[i], m.to);
    RunLeaderHistory(run, i, j, m.to);
    RunLeaderTracksOthers(run, j, m.to);
    OthersExcludeSelf(m.to, |run[j].servers|);
    SuccessMoves(before, m.to, |run[j].servers|, m.from, m.append, m.appended);
  }

  lemma AnsweredAsk(sys: Sys, m: Message)
    requires Answers(sys, m)
    ensures AskAppend(m.to, m.from, m.append) in sys.messages
  {
  }

  lemma OthersExcludeSelf(self: nat, size: nat)
    ensures self !in Others(self, size)
  {
  }

  /** A reply that reports a success leaves the leader nothing it could still commit. */
  lemma RunNothingLeftToCommit(run: seq<Sys>, j: nat, m: Message, n: nat)
    requires IsExecution(run) && j + 1 < |run| && AppendReplyStep(run[j], run[j + 1], m) && m.appended.success
    ensures m.to < |run[j + 1].servers| && !MayCommit(run[j + 1].servers[m.to], m.to, |run[j + 1].servers|, n)
  {
    hide IsExecution, Inv, AdvanceCommit, MayCommit, HistoryInv, GoodLog, TermsUpTo;
    RunReplyStepFacts(run, j, m);
    var sys := run[j + 1];
    var sv, size := sys.servers[m.to], |sys.servers|;
    var mid := Progress(run[j].servers[m.to], m.from, m.append);
    CommitRule(sys.history, sys.elections, mid, m.to, size);
    SameButCommit(mid, m.to, size, n);
  }

  lemma SameButCommit(s: Server, self: nat, size: nat, n: nat)
    requires size > 0
    requires forall k: nat :: MayCommit(s, self, size, k) ==> k <= AdvanceCommit(s, self, size).commitIndex
    ensures !MayCommit(AdvanceCommit(s, self, size), self, size, n)
  {
    var after := AdvanceCommit(s, self, size);
    hide QuorumIndex;
    assert MatchIndexes(after, self, size) == MatchIndexes(s, self, size);
    assert MayCommit(after, self, size, n) ==> MayCommit(s, self, size, n);
  }

  /** What the reply step leaves: the invariant, and the progress it made before it counted. */
  lemma RunReplyStepFacts(run: seq<Sys>, j: nat, m: Message)
    requires IsExecution(run) && j + 1 < |run| && AppendReplyStep(run[j], run[j + 1], m) && m.appended.success
    ensures var sys, mid := run[j + 1], Progress(run[j].servers[m.to], m.from, m.append);
            && m.to < |sys.servers| == |run[j].servers|
            && sys.servers[m.to] == AdvanceCommit(mid, m.to, |sys.servers|)
            && HistoryInv(sys.history, sys.elections) && GoodLog(sys.history, mid.log)
            && TermsUpTo(mid.log, mid.term) && forall p: nat :: MatchOf(mid, m.to, p) <= |mid.log|
  {
    hide IsExecution, VotesInv, ElectionsInv, MessagesInv, AcksInv, ServersInv, HistoryInv, CommitsInv, AppliedInv,
         Retains, GoodLog, CommittedPrefix, PeersOk, MatchOf, QuorumIndex, PeerOk;
    ExecutionInv(run, j + 1);
    var sys := run[j + 1];
    ServerFacts(sys, m.to);
    MatchesWithinLog(sys.acks, |sys.servers|, sys.servers[m.to], m.to);
    MatchesUnmoved(Progress(run[j].servers[m.to], m.from, m.append), m.to, |sys.servers|);
  }

  lemma MatchesUnmoved(s: Server, self: nat, size: nat)
    requires size > 0
    ensures forall p: nat :: MatchOf(AdvanceCommit(s, self, size), self, p) == MatchOf(s, self, p)
  {
    hide QuorumIndex;
  }

  // ------------------------------------------------------------ only a crash forgets

  ghost predicate Crashes(sys: Sys, sys': Sys) {
    || (exists s :: Crash(sys, sys', s))
    || (exists s, term :: CrashInPersist(sys, sys', s, term))
    || (exists m :: CrashInHandler(sys, sys', m))
    || (exists m, cut :: CrashInAppend(sys, sys', m, cut))
  }

  ghost predicate Forward(sys: Sys, sys': Sys, s: nat) {
    && s < |sys.servers| == |sys'.servers|
    && sys.servers[s].commitIndex <= sys'.servers[s].commitIndex
    && sys.servers[s].lastApplied <= sys'.servers[s].lastApplied
  }

  lemma TimeoutGoesForward(sys: Sys, sys': Sys, t: nat, s: nat)
    requires s < |sys'.servers| && Timeout(sys, sys', t)
    ensures Forward(sys, sys', s)
  {
    hide ElectionRequest, Others;
  }

  lemma VoteStepsGoForward(sys: Sys, sys': Sys, m: Message, s: nat)
    requires s < |sys'.servers| && (HandleVoteStep(sys, sys', m) || VoteReplyStep(sys, sys', m))
    ensures Forward(sys, sys', s)
  {
    hide Grants;
  }

  lemma WinGoesForward(sys: Sys, sys': Sys, w: nat, q: set<nat>, s: nat)
    requires s < |sys'.servers| && Win(sys, sys', w, q)
    ensures Forward(sys, sys', s)
  {
    hide IsQuorum, GrantedBy, FreshPeers;
  }

  lemma LeaderStepsGoForward(sys: Sys, sys': Sys, s: nat)
    requires s < |sys'.servers|
    requires (exists l, data :: LeaderAppend(sys, sys', l, data)) || (exists l, p :: SendAppend(sys, sys', l, p))
    ensures Forward(sys, sys', s)
  {
    hide BuildAppend;
  }

  lemma AppendStepGoesForward(sys: Sys, sys': Sys, m: Message, s: nat)
    requires Inv(sys) && HandleAppendStep(sys, sys', m) && s < |sys'.servers|
    ensures Forward(sys, sys', s)
  {
    hide VotesInv, ElectionsInv, MessagesInv, AcksInv, ServersInv, HistoryInv, CommitsInv, AppliedInv, HandleAppend,
         Matches, Refusal, MergeEntries, Accept;
    var f, r := sys.servers[m.to], HandleAppend(sys.servers[m.to], m.append);
    if r.resp.success {
      AcceptedFacts(sys, m);
      AppliedKept(f, m.append);
    } else {
      RefusedKept(f, m.append);
    }
  }

  lemma AppliedKept(f: Server, req: AppendReq)
    ensures HandleAppend(f, req).server.lastApplied == f.lastApplied
  {
    hide Matches, Refusal, MergeEntries;
  }

  lemma RefusedKept(f: Server, req: AppendReq)
    requires !HandleAppend(f, req).resp.success
    ensures HandleAppend(f, req).server.commitIndex == f.commitIndex
    ensures HandleAppend(f, req).server.lastApplied == f.lastApplied
  {
    hide Matches, RunStart, MergeEntries;
  }

  lemma ReplyStepsGoForward(sys: Sys, sys': Sys, m: Message, s: nat)
    requires s < |sys'.servers| && (AppendReplyDeposes(sys, sys', m) || AppendReplyStep(sys, sys', m))
    ensures Forward(sys, sys', s)
  {
    hide QuorumIndex, Backup;
  }

  lemma ApplyGoesForward(sys: Sys, sys': Sys, l: nat, s: nat)
    requires s < |sys'.servers| && ApplyStep(sys, sys', l)
    ensures Forward(sys, sys', s)
  {
  }

  /** In every step of every run, commit and applied indexes only fall in a crash. */
  lemma RunOnlyCrashesForget(run: seq<Sys>, i: nat, s: nat)
    requires IsExecution(run) && i + 1 < |run| && s < |run[i + 1].servers| && !Crashes(run[i], run[i + 1])
    ensures Forward(run[i], run[i + 1], s)
  {
    ExecutionInv(run, i);
    assert Next(run[i], run[i + 1]);
    hide Timeout, HandleVoteStep, VoteReplyStep, Win, LeaderAppend, SendAppend, HandleAppendStep, AppendReplyDeposes,
         AppendReplyStep, ApplyStep, Crash, CrashInPersist, CrashInHandler, CrashInAppend, Forward, Inv, IsExecution;
    var sys, sys' := run[i], run[i + 1];
    if m :| HandleAppendStep(sys, sys', m) {
      AppendStepGoesForward(sys, sys', m, s);
    } else if m :| AppendReplyDeposes(sys, sys', m) || AppendReplyStep(sys, sys', m) {
      ReplyStepsGoForward(sys, sys', m, s);
    } else if l :| ApplyStep(sys, sys', l) {
      ApplyGoesForward(sys, sys', l, s);
    } else if t :| Timeout(sys, sys', t) {
      TimeoutGoesForward(sys, sys', t, s);
    } else if m :| HandleVoteStep(sys, sys', m) || VoteReplyStep(sys, sys', m) {
      VoteStepsGoForward(sys, sys', m, s);
    } else if w, q :| Win(sys, sys', w, q) {
      WinGoesForward(sys, sys', w, q, s);
    } else {
      LeaderStepsGoForward(sys, sys', s);
    }
  }
}
