/** Replication in every reachable state: requests, acceptance, refusals however late, and the commit rule. */
module RaftReplication {
  import opened Numbers
  import opened RaftServer
  import opened RaftSystem
  import opened RaftInvariant
  import opened RaftSafety
  import opened RaftSteps
  import RaftGrowth
  import opened RaftQuorum
  import RaftFollowers
  import opened RaftTransitions
  import opened RaftRuns
  import opened RaftOrigins
  import opened RaftBackup

  // ------------------------------------------------------------ requests

  /** Every request a leader builds ends at its last entry, at or beyond its commit index. */
  lemma RunRequestsReachTheEnd(run: seq<Sys>, i: nat, s: nat, p: nat)
    requires IsExecution(run) && i < |run| && s < |run[i].servers|
    requires run[i].servers[s].role.Leader? && p in run[i].servers[s].peers
    ensures var sv := run[i].servers[s];
            && 1 <= sv.peers[p].nextIndex <= |sv.log| + 1
            && var req := BuildAppend(sv, s, sv.peers[p]);
               req.prevIndex + |req.entries| == |sv.log| && req.leaderCommit <= |sv.log|
  {
    hide Inv, IsExecution;
    ExecutionInv(run, i);
    BuiltRequestOk(run[i], s, p);
  }

  // ------------------------------------------------------------ acceptance

  /** What accepting a request leaves in a follower's log and commit index. */
  lemma AcceptedFacts(sys: Sys, m: Message)
    requires Inv(sys) && m in sys.messages && m.AskAppend? && m.to < |sys.servers|
    requires HandleAppend(sys.servers[m.to], m.append).resp.success
    ensures var f, f', req := sys.servers[m.to], HandleAppend(sys.servers[m.to], m.append).server, m.append;
            var end := req.prevIndex + |req.entries|;
            && f'.commitIndex == (if req.leaderCommit > f.commitIndex then req.leaderCommit else f.commitIndex)
            && f'.term == req.term && Holds(sys.history, f'.log, req.term, end)
            && req.term in sys.elections && sys.elections[req.term].leader != m.to
  {
    hide VotesInv, ElectionsInv, MessagesInv, AcksInv, ServersInv, HistoryInv, CommitsInv, AppliedInv, Retains, GoodLog,
         CommittedPrefix, MergeEntries, RaftFollowers.KeepsCommon;
    MessageFacts(sys, m);
    var s1 := Submit(sys.servers[m.to], m.append.term);
    ServerFacts(sys, m.to);
    assert TermsUpTo(s1.log, m.append.term);
    MergeFits(sys.history, sys.elections, sys.commits, s1.log, m.from, m.to, m.append);
  }

  /** The log a leader builds in its term, as recorded now, against that leader at any moment of the run. */
  lemma RunLeaderHistory(run: seq<Sys>, i: nat, j: nat, s: nat)
    requires IsExecution(run) && i < |run| && j < |run| && s < |run[j].servers| && run[j].servers[s].role.Leader?
    ensures var t := run[j].servers[s].term;
            && (j <= i ==> t in run[i].history && run[j].servers[s].log <= run[i].history[t])
            && (i <= j && t in run[i].history ==> run[i].history[t] <= run[j].servers[s].log)
  {
    hide Inv, IsExecution;
    ExecutionInv(run, j);
    LeaderFacts(run[j], s);
    if j <= i {
      RunIsLater(run, j, i);
    }
    if i <= j {
      RunIsLater(run, i, j);
    }
  }

  lemma AfterAccept(sys: Sys, m: Message, sys': Sys)
    requires Inv(sys) && HandleAppendStep(sys, sys', m) && HandleAppend(sys.servers[m.to], m.append).resp.success
    ensures m.append.term in sys.history
    ensures var f' := sys'.servers[m.to];
            f'.commitIndex <= |f'.log| && f'.log[..f'.commitIndex] <= sys.history[m.append.term]
  {
    hide VotesInv, ElectionsInv, MessagesInv, AcksInv, ServersInv, HistoryInv, CommitsInv, AppliedInv, Retains, GoodLog,
         CommittedPrefix, HandleAppend;
    HandleAppendKeeps(sys, sys', m);
    AcceptedFacts(sys, m);
    ServerFacts(sys', m.to);
    var f' := sys'.servers[m.to];
    LeaderHasCommitted(sys', f'.log[..f'.commitIndex], m.append.term);
  }

  /**
   * Follower commit safety, for every accepted request, also a late one of a leader since deposed:
   * it leaves the entries of that term's leader up to its end, and the commit index at the
   * leader's, never cut short and never over an entry the leader does not hold.
   */
  lemma RunFollowerCommitSafety(run: seq<Sys>, i: nat, m: Message)
    requires IsExecution(run) && i < |run| && m in run[i].messages && m.AskAppend? && m.to < |run[i].servers|
    requires HandleAppend(run[i].servers[m.to], m.append).resp.success
    ensures m.append.term in run[i].history
    ensures var f, leader := run[i].servers[m.to], run[i].history[m.append.term];
            var f' := HandleAppend(f, m.append).server;
            var end := m.append.prevIndex + |m.append.entries|;
            && end <= |leader| && leader[..end] <= f'.log
            && f'.commitIndex == Max(m.append.leaderCommit, f.commitIndex)
            && f'.commitIndex <= |f'.log| && f'.log[..f'.commitIndex] <= leader
  {
    hide Inv, IsExecution, HandleAppend;
    var sys := run[i];
    ExecutionInv(run, i);
    AcceptedFacts(sys, m);
    var r := HandleAppend(sys.servers[m.to], m.append);
    var sys1 := RecordAck(Put(sys, m.to, r.server), m.to, m.append.term, m.append.prevIndex + |m.append.entries|);
    AfterAccept(sys, m, Send(sys1, {ReplyAppend(m.to, m.from, m.append, r.resp)}));
  }

  // ------------------------------------------------------------ where requests and replies come from

  /** What a leader had at moment `i` is what its request to `to` carries. */
  ghost predicate AskedAt(run: seq<Sys>, i: nat, from: nat, to: nat, req: AppendReq) {
    && i < |run| && from < |run[i].servers|
    && var sv := run[i].servers[from];
       && sv.role.Leader? && sv.term == req.term && req.leader == from
       && to in sv.peers && req.prevIndex + 1 == sv.peers[to].nextIndex
       && req.prevIndex <= |sv.log| && req.entries == sv.log[req.prevIndex..]
       && req.leaderCommit == sv.commitIndex
  }

  /**
   * Every append request in flight is what its sender had at an earlier moment at which it led: its
   * entries from nextIndex to the last, and its commit index.
   */
  lemma RunRequestWasSent(run: seq<Sys>, j: nat, m: Message) returns (i: nat)
    requires IsExecution(run) && j < |run| && m in run[j].messages && m.AskAppend?
    ensures i < j && AskedAt(run, i, m.from, m.to, m.append)
  {
    hide Inv, IsExecution;
    i := RunMessageWasSent(run, j, m);
    ExecutionInv(run, i);
    BuiltRequestOk(run[i], m.from, m.to);
  }

  ghost predicate GivenAt(run: seq<Sys>, i: nat, m: Message) {
    i < |run| && Answers(run[i], m)
  }

  /** Every reply in flight was given at an earlier moment, by its sender as it was then. */
  lemma RunReplyWasGiven(run: seq<Sys>, j: nat, m: Message) returns (i: nat)
    requires IsExecution(run) && j < |run| && m in run[j].messages && m.ReplyAppend?
    ensures i < j && GivenAt(run, i, m)
  {
    hide IsExecution, Answers;
    i := RunMessageWasSent(run, j, m);
  }

  /** A follower that accepts knows as much committed as its leader did when it sent the request. */
  lemma RunFollowerLearnsCommit(run: seq<Sys>, j: nat, m: Message) returns (i: nat)
    requires IsExecution(run) && j < |run| && m in run[j].messages && m.AskAppend? && m.to < |run[j].servers|
    requires HandleAppend(run[j].servers[m.to], m.append).resp.success
    ensures i < j && AskedAt(run, i, m.from, m.to, m.append)
    ensures var f := run[j].servers[m.to];
            HandleAppend(f, m.append).server.commitIndex == Max(run[i].servers[m.from].commitIndex, f.commitIndex)
  {
    hide IsExecution, HandleAppend;
    i := RunRequestWasSent(run, j, m);
    RunFollowerCommitSafety(run, j, m);
  }

  // ------------------------------------------------------------ refusals

  lemma RefusalGiven(f: Server, req: AppendReq)
    requires !HandleAppend(f, req).resp.success && HandleAppend(f, req).resp.term <= req.term
    ensures !Matches(f.log, req)
    ensures HandleAppend(f, req).resp == Refusal(f.(term := req.term), req)
  {
    hide RunStart, MergeEntries;
  }

  lemma RequestOfLeader(run: seq<Sys>, i: nat, j: nat, m: Message, s: nat)
    requires IsExecution(run) && i <= j < |run| && m in run[i].messages && m.AskAppend?
    requires s < |run[j].servers| && run[j].servers[s].role.Leader? && run[j].servers[s].term == m.append.term
    ensures var log := run[j].servers[s].log;
            m.append.prevIndex <= |log| && m.append.prevTerm == TermAt(log, m.append.prevIndex)
  {
    hide IsExecution, VotesInv, ElectionsInv, AcksInv, ServersInv, HistoryInv, CommitsInv, AppliedInv, CommittedPrefix,
         MessagesInv;
    ExecutionInv(run, i);
    MessageFacts(run[i], m);
    RunLeaderHistory(run, i, j, s);
    RaftGrowth.SameSlice(run[i].history[m.append.term], run[j].servers[s].log, m.append.prevIndex, m.append.prevIndex);
  }

  /**
   * Fast backup on every refusal, however late: the new nextIndex is below the one the request was
   * built from, above all that the leader now shares with the follower as it was when it refused, and
   * past a whole term of that follower's log, or all that its log is short of.
   */
  lemma RunFastBackup(run: seq<Sys>, j: nat, m: Message) returns (i: nat)
    requires IsExecution(run) && j < |run| && m in run[j].messages && m.ReplyAppend? && !m.appended.success
    requires m.to < |run[j].servers| && run[j].servers[m.to].role.Leader? && m.from in run[j].servers[m.to].peers
    requires m.appended.term <= m.append.term == run[j].servers[m.to].term
    ensures i < j && GivenAt(run, i, m)
    ensures var next := BackUp(run[j].servers[m.to], m.from, m.appended).peers[m.from].nextIndex;
            && next <= m.append.prevIndex
            && NextAfterRefusal(run[j].servers[m.to].log, run[i].servers[m.from].log, m.append.prevIndex, next)
            && forall common: nat :: AgreeUpTo(run[j].servers[m.to].log, run[i].servers[m.from].log, common) ==>
              common + 1 <= next
  {
    hide IsExecution, VotesInv, ElectionsInv, MessagesInv, AcksInv, ServersInv, CommitsInv, AppliedInv, HistoryInv,
         GoodLog,
         AgreeUpTo, HandleAppend, Refusal, Backup, Matches, NextAfterRefusal;
    i := RunReplyWasGiven(run, j, m);
    var f, leader := run[i].servers[m.from], run[j].servers[m.to];
    var f1 := f.(term := m.append.term);
    RefusalGiven(f, m.append);
    LaterLog(run, i, j, m.from);
    LaterLog(run, j, j, m.to);
    RequestOfLeader(run, i, j, AskAppend(m.to, m.from, m.append), m.to);
    var h, el, p := run[j].history, run[j].elections, CommonLength(leader.log, f.log, 0);
    FastBackupIsSound(h, el, leader.log, f1, m.append, p);
    RefusalDisposesOfTerm(h, el, leader.log, f1, m.append);
    forall common: nat | AgreeUpTo(leader.log, f.log, common)
      ensures common + 1 <= Backup(leader.log, m.appended)
    {
      FastBackupIsSound(h, el, leader.log, f1, m.append, common);
    }
  }

  /**
   * In every reachable state fast backup, repeated, ends where decrement-by-one ends, after at most
   * one refusal for each term in the follower's log beyond the common prefix, and one more for a log
   * that is too short.
   */
  lemma RunBackupEnds(run: seq<Sys>, i: nat, s: nat, p: nat)
    requires IsExecution(run) && i < |run| && s < |run[i].servers| && p < |run[i].servers|
    requires run[i].servers[s].role.Leader? && p in run[i].servers[s].peers
    ensures var sys, sv, f := run[i], run[i].servers[s], run[i].servers[p];
            var next := sv.peers[p].nextIndex;
            && HistoryInv(sys.history, sys.elections) && GoodLog(sys.history, sv.log) && GoodLog(sys.history, f.log)
            && 1 <= next <= |sv.log| + 1
            && JumpBack(sys.history, sys.elections, sv, s, f, next) == StepBack(sv, s, f.log, next)
               == Min(next, CommonLength(sv.log, f.log, 0) + 1)
            && Refusals(sys.history, sys.elections, sv, s, f, next) <=
               |TermsIn(f.log, CommonLength(sv.log, f.log, 0), |f.log|)| + if next > |f.log| + 1 then 1 else 0
  {
    hide IsExecution, VotesInv, ElectionsInv, MessagesInv, AcksInv, ServersInv, HistoryInv, CommitsInv, AppliedInv,
         Retains, GoodLog,
         CommittedPrefix, JumpBack, StepBack, CommonLength, Refusals, TermsIn;
    ExecutionInv(run, i);
    var sys, sv, f := run[i], run[i].servers[s], run[i].servers[p];
    ServerFacts(sys, s);
    ServerFacts(sys, p);
    BuiltRequestOk(sys, s, p);
    JumpBackEndsWhereStepBackDoes(sys.history, sys.elections, sv, s, f, sv.peers[p].nextIndex);
    RefusalsBounded(sys.history, sys.elections, sv, s, f, sv.peers[p].nextIndex);
  }

  // ------------------------------------------------------------ the commit rule

  /** A leader tracks exactly the other servers, as its response handler and its counting assume. */
  lemma RunLeaderTracksOthers(run: seq<Sys>, i: nat, s: nat)
    requires IsExecution(run) && i < |run| && s < |run[i].servers| && run[i].servers[s].role.Leader?
    ensures run[i].servers[s].peers.Keys == Others(s, |run[i].servers|)
  {
    hide IsExecution, VotesInv, ElectionsInv, MessagesInv, AcksInv, ServersInv, HistoryInv, CommitsInv, AppliedInv,
         Retains,
         GoodLog, CommittedPrefix;
    ExecutionInv(run, i);
    ServerFacts(run[i], s);
  }

  lemma MatchesWithinLog(acks: Acks, size: nat, sv: Server, s: nat)
    requires PeersOk(acks, size, sv, s) && sv.role.Leader?
    ensures forall p: nat :: MatchOf(sv, s, p) <= |sv.log|
  {
    forall p: nat
      ensures MatchOf(sv, s, p) <= |sv.log|
    {
      if p != s && p in sv.peers {
        assert PeerOk(acks, size, sv, s, p);
      }
    }
  }

  /** In every reachable state a leader commits exactly the greatest index the own-term rule allows. */
  lemma RunCommitRule(run: seq<Sys>, i: nat, s: nat)
    requires IsExecution(run) && i < |run| && s < |run[i].servers| && run[i].servers[s].role.Leader?
    ensures var sv, size := run[i].servers[s], |run[i].servers|;
            && size > 0
            && var n := AdvanceCommit(sv, s, size).commitIndex;
               && (n == sv.commitIndex || MayCommit(sv, s, size, n))
               && (forall j: nat :: MayCommit(sv, s, size, j) ==> j <= n)
  {
    hide IsExecution, VotesInv, ElectionsInv, MessagesInv, AcksInv, ServersInv, HistoryInv, CommitsInv, AppliedInv,
         Retains, GoodLog,
         CommittedPrefix, AdvanceCommit, MayCommit, PeersOk, MatchOf;
    ExecutionInv(run, i);
    ServerFacts(run[i], s);
    MatchesWithinLog(run[i].acks, |run[i].servers|, run[i].servers[s], s);
    CommitRule(run[i].history, run[i].elections, run[i].servers[s], s, |run[i].servers|);
  }
}
