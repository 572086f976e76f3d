/**
 * How votes change within a term. A server that stood for election and then hears from the winner
 * of its term forgets the vote for itself and may vote again; no other vote is ever taken back.
 */
module RaftVotes {
  import opened Options
  import DocumentFsm
  import opened RaftServer
  import opened RaftSystem
  import opened RaftInvariant
  import opened RaftSteps
  import opened RaftTransitions
  import opened RaftRuns

  /** Same term, and the vote is gone or another's. */
  predicate LosesVote(a: Server, b: Server) {
    a.term == b.term && a.votedFor.Some? && b.votedFor != a.votedFor
  }

  /** A request of the server's own term reaches it, whether or not it survives the handler. */
  ghost predicate HearsVia(sys: Sys, sys': Sys, v: nat, m: Message)
    requires v < |sys.servers|
  {
    && m.AskAppend? && m.to == v && m.append.term == sys.servers[v].term
    && (HandleAppendStep(sys, sys', m) || CrashInHandler(sys, sys', m)
      || exists cut :: CrashInAppend(sys, sys', m, cut))
  }

  ghost predicate HearsOfItsTerm(sys: Sys, sys': Sys, v: nat)
    requires v < |sys.servers|
  {
    exists m :: HearsVia(sys, sys', v, m)
  }

  /** A candidate's vote for itself, in a term that somebody else has won. */
  ghost predicate BeatenCandidate(sys: Sys, v: nat)
    requires v < |sys.servers|
  {
    var a := sys.servers[v];
    a.role.Candidate? && a.votedFor == Some(v) && a.term in sys.elections && sys.elections[a.term].leader != v
  }

  // ------------------------------------------------------------ step by step

  /** What one step may do to a server's vote. */
  ghost predicate VoteMoves(sys: Sys, sys': Sys, v: nat)
    requires v < |sys.servers| && |sys'.servers| == |sys.servers|
  {
    var a, b := sys.servers[v], sys'.servers[v];
    a.term <= b.term && (LosesVote(a, b) ==> BeatenCandidate(sys, v) && HearsOfItsTerm(sys, sys', v))
  }

  /** A moved server that keeps its vote or its term grows. */
  lemma PutKeepsVote(sys: Sys, sys': Sys, r: nat, b: Server, v: nat)
    requires r < |sys.servers| && v < |sys.servers| && sys'.servers == Put(sys, r, b).servers
    requires sys.servers[r].term <= b.term && !LosesVote(sys.servers[r], b)
    ensures VoteMoves(sys, sys', v)
  {
  }

  lemma TimeoutVotes(sys: Sys, sys': Sys, r: nat, v: nat)
    requires v < |sys.servers| && Timeout(sys, sys', r)
    ensures |sys'.servers| == |sys.servers| && VoteMoves(sys, sys', v)
  {
    hide Others, ElectionRequest;
    PutKeepsVote(sys, sys', r, sys'.servers[r], v);
  }

  lemma HandleVoteVotes(sys: Sys, sys': Sys, m: Message, v: nat)
    requires v < |sys.servers| && HandleVoteStep(sys, sys', m)
    ensures |sys'.servers| == |sys.servers| && VoteMoves(sys, sys', v)
  {
    hide UpToDate, LastTerm;
    PutKeepsVote(sys, sys', m.to, sys'.servers[m.to], v);
  }

  lemma ReplyVotes(sys: Sys, sys': Sys, m: Message, v: nat)
    requires v < |sys.servers| && (VoteReplyStep(sys, sys', m) || AppendReplyDeposes(sys, sys', m))
    ensures |sys'.servers| == |sys.servers| && VoteMoves(sys, sys', v)
  {
    PutKeepsVote(sys, sys', m.to, sys'.servers[m.to], v);
  }

  lemma ProgressVotes(sys: Sys, sys': Sys, m: Message, v: nat)
    requires v < |sys.servers| && AppendReplyStep(sys, sys', m)
    ensures |sys'.servers| == |sys.servers| && VoteMoves(sys, sys', v)
  {
    hide QuorumIndex, Backup;
    PutKeepsVote(sys, sys', m.to, sys'.servers[m.to], v);
  }

  lemma WinVotes(sys: Sys, sys': Sys, r: nat, q: set<nat>, v: nat)
    requires v < |sys.servers| && Win(sys, sys', r, q)
    ensures |sys'.servers| == |sys.servers| && VoteMoves(sys, sys', v)
  {
    hide IsQuorum, GrantedBy, FreshPeers;
    PutKeepsVote(sys, sys', r, sys'.servers[r], v);
  }

  lemma LeaderAppendVotes(sys: Sys, sys': Sys, r: nat, data: Option<DocumentFsm.Submission>, v: nat)
    requires v < |sys.servers| && LeaderAppend(sys, sys', r, data)
    ensures |sys'.servers| == |sys.servers| && VoteMoves(sys, sys', v)
  {
    PutKeepsVote(sys, sys', r, sys'.servers[r], v);
  }

  lemma SendVotes(sys: Sys, sys': Sys, r: nat, p: nat, v: nat)
    requires v < |sys.servers| && SendAppend(sys, sys', r, p)
    ensures |sys'.servers| == |sys.servers| && VoteMoves(sys, sys', v)
  {
    hide BuildAppend;
  }

  lemma LocalVotes(sys: Sys, sys': Sys, r: nat, term: nat, v: nat)
    requires v < |sys.servers| && (ApplyStep(sys, sys', r) || Crash(sys, sys', r) || CrashInPersist(sys, sys', r, term))
    ensures |sys'.servers| == |sys.servers| && VoteMoves(sys, sys', v)
  {
    PutKeepsVote(sys, sys', r, sys'.servers[r], v);
  }

  /** A leader never hears from another leader of its term, so only a candidate forgets its vote. */
  lemma ForgetsOnlyWhenBeaten(sys: Sys, m: Message)
    requires Inv(sys) && m in sys.messages && m.AskAppend? && m.to < |sys.servers|
             && m.append.term >= sys.servers[m.to].term
    requires LosesVote(sys.servers[m.to], Submit(sys.servers[m.to], m.append.term))
    ensures BeatenCandidate(sys, m.to) && m.append.term == sys.servers[m.to].term
  {
    hide VotesInv, ElectionsInv, MessagesInv, AcksInv, ServersInv, HistoryInv, CommitsInv, AppliedInv, Retains, GoodLog,
         CommittedPrefix;
    MessageFacts(sys, m);
    ServerFacts(sys, m.to);
  }

  lemma AppendVotes(sys: Sys, sys': Sys, m: Message, v: nat)
    requires Inv(sys) && v < |sys.servers| && HandleAppendStep(sys, sys', m)
    ensures |sys'.servers| == |sys.servers| && VoteMoves(sys, sys', v)
  {
    hide Inv, MergeEntries, Matches, Refusal;
    var a, b := sys.servers[m.to], sys'.servers[m.to];
    if v == m.to && LosesVote(a, b) {
      ForgetsOnlyWhenBeaten(sys, m);
      assert HearsVia(sys, sys', v, m);
    }
  }

  lemma CutVotes(sys: Sys, sys': Sys, m: Message, cut: nat, v: nat)
    requires Inv(sys) && v < |sys.servers| && CrashInAppend(sys, sys', m, cut)
    ensures |sys'.servers| == |sys.servers| && VoteMoves(sys, sys', v)
  {
    hide Inv, Matches, FirstConflict;
    var a, b := sys.servers[m.to], sys'.servers[m.to];
    if v == m.to && LosesVote(a, b) {
      ForgetsOnlyWhenBeaten(sys, m);
      assert HearsVia(sys, sys', v, m);
    }
  }

  lemma HandlerCrashVotes(sys: Sys, sys': Sys, m: Message, v: nat)
    requires Inv(sys) && v < |sys.servers| && CrashInHandler(sys, sys', m)
    ensures |sys'.servers| == |sys.servers| && VoteMoves(sys, sys', v)
  {
    hide Inv;
    var a, b := sys.servers[m.to], sys'.servers[m.to];
    if v == m.to && LosesVote(a, b) {
      ForgetsOnlyWhenBeaten(sys, m);
      assert HearsVia(sys, sys', v, m);
    }
  }

  lemma NextVotes(sys: Sys, sys': Sys, v: nat)
    requires Inv(sys) && Next(sys, sys') && v < |sys.servers|
    ensures |sys'.servers| == |sys.servers| && VoteMoves(sys, sys', v)
  {
    hide Inv, Timeout, HandleVoteStep, VoteReplyStep, Win, LeaderAppend, SendAppend, HandleAppendStep,
         AppendReplyDeposes, AppendReplyStep, ApplyStep, Crash, CrashInPersist, CrashInHandler, CrashInAppend,
           VoteMoves;
    if s :| Timeout(sys, sys', s) {
      TimeoutVotes(sys, sys', s, v);
    } else if m :| HandleVoteStep(sys, sys', m) {
      HandleVoteVotes(sys, sys', m, v);
    } else if m :| VoteReplyStep(sys, sys', m) {
      ReplyVotes(sys, sys', m, v);
    } else if s, q :| Win(sys, sys', s, q) {
      WinVotes(sys, sys', s, q, v);
    } else if s, data :| LeaderAppend(sys, sys', s, data) {
      LeaderAppendVotes(sys, sys', s, data, v);
    } else if s, p :| SendAppend(sys, sys', s, p) {
      SendVotes(sys, sys', s, p, v);
    } else if m :| HandleAppendStep(sys, sys', m) {
      AppendVotes(sys, sys', m, v);
    } else if m :| AppendReplyDeposes(sys, sys', m) {
      ReplyVotes(sys, sys', m, v);
    } else if m :| AppendReplyStep(sys, sys', m) {
      ProgressVotes(sys, sys', m, v);
    } else if s :| ApplyStep(sys, sys', s) {
      LocalVotes(sys, sys', s, 0, v);
    } else if s :| Crash(sys, sys', s) {
      LocalVotes(sys, sys', s, 0, v);
    } else if s, term :| CrashInPersist(sys, sys', s, term) {
      LocalVotes(sys, sys', s, term, v);
    } else if m :| CrashInHandler(sys, sys', m) {
      HandlerCrashVotes(sys, sys', m, v);
    } else {
      var m, cut :| CrashInAppend(sys, sys', m, cut);
      CutVotes(sys, sys', m, cut, v);
    }
  }

  /** A candidate that hears from a leader of its term steps down and forgets its vote. */
  lemma CandidateSubmits(a: Server, req: AppendReq)
    requires a.role.Candidate? && a.votedFor.Some? && req.term == a.term
    ensures LosesVote(a, Submit(a, req.term))
    ensures HandleAppend(a, req).server.term == a.term && HandleAppend(a, req).server.votedFor == None
  {
    hide MergeEntries, Matches, Refusal;
  }

  lemma CandidateForgets(sys: Sys, sys': Sys, v: nat, m: Message)
    requires v < |sys.servers| && sys.servers[v].role.Candidate? && sys.servers[v].votedFor.Some?
    requires HearsVia(sys, sys', v, m)
    ensures v < |sys'.servers| && LosesVote(sys.servers[v], sys'.servers[v])
  {
    hide HandleAppend, Matches, FirstConflict, Submit;
    CandidateSubmits(sys.servers[v], m.append);
  }

  /**
   * The exact moment a vote is lost within its term, in every step of every run: its owner is a
   * candidate and is reached by an append request of that term.
   */
  lemma RunVoteLostExactlyWhen(run: seq<Sys>, i: nat, v: nat)
    requires IsExecution(run) && i + 1 < |run| && v < |run[i].servers|
    ensures |run[i + 1].servers| == |run[i].servers|
    ensures LosesVote(run[i].servers[v], run[i + 1].servers[v]) <==>
              run[i].servers[v].role.Candidate? && HearsOfItsTerm(run[i], run[i + 1], v)
  {
    hide Inv, Next, Init, HearsVia, LosesVote;
    ExecutionInv(run, i);
    NextVotes(run[i], run[i + 1], v);
    if run[i].servers[v].role.Candidate? && HearsOfItsTerm(run[i], run[i + 1], v) {
      var m :| HearsVia(run[i], run[i + 1], v, m);
      CandidateVotedForItself(run[i], v);
      CandidateForgets(run[i], run[i + 1], v, m);
    }
  }

  lemma CandidateVotedForItself(sys: Sys, v: nat)
    requires Inv(sys) && v < |sys.servers| && sys.servers[v].role.Candidate?
    ensures sys.servers[v].votedFor == Some(v)
  {
    hide VotesInv, ElectionsInv, MessagesInv, AcksInv, ServersInv, HistoryInv, CommitsInv, AppliedInv, Retains, GoodLog,
         CommittedPrefix;
    ServerFacts(sys, v);
  }

  // ------------------------------------------------------------ over a run

  lemma {:induction false} TermsGrow(run: seq<Sys>, i: nat, j: nat, v: nat)
    requires IsExecution(run) && i <= j < |run| && v < |run[i].servers|
    ensures |run[j].servers| == |run[i].servers| && run[i].servers[v].term <= run[j].servers[v].term
    decreases j - i
  {
    hide Inv, Next, Init, LosesVote, BeatenCandidate, HearsVia;
    if i < j {
      TermsGrow(run, i, j - 1, v);
      ExecutionInv(run, j - 1);
      NextVotes(run[j - 1], run[j - 1 + 1], v);
    }
  }

  /** At moment `k` of the run the server loses its vote for itself to the winner of its term. */
  ghost predicate BeatenAt(run: seq<Sys>, k: nat, v: nat, t: nat) {
    && k + 1 < |run| && v < |run[k].servers| && v < |run[k + 1].servers|
    && run[k].servers[v].term == t && BeatenCandidate(run[k], v) && LosesVote(run[k].servers[v], run[k + 1].servers[v])
  }

  /**
   * A vote that changes within its term was the server's own; in between, the server was a
   * candidate and the term had been won by another.
   */
  lemma {:induction false} RunVoteChanges(run: seq<Sys>, i: nat, j: nat, v: nat) returns (k: nat)
    requires IsExecution(run) && i <= j < |run| && v < |run[i].servers| && v < |run[j].servers|
    requires run[i].servers[v].term == run[j].servers[v].term
    requires run[i].servers[v].votedFor.Some? && run[j].servers[v].votedFor != run[i].servers[v].votedFor
    ensures run[i].servers[v].votedFor == Some(v)
    ensures i <= k < j && BeatenAt(run, k, v, run[i].servers[v].term)
    decreases j - i
  {
    hide Inv, Next, Init, BeatenCandidate, HearsVia;
    TermsGrow(run, i, j - 1, v);
    TermsGrow(run, j - 1, j, v);
    if run[j - 1].servers[v].votedFor == run[i].servers[v].votedFor {
      k := j - 1;
      ExecutionInv(run, k);
      NextVotes(run[k], run[k + 1], v);
      OwnVote(run[k], v);
    } else {
      k := RunVoteChanges(run, i, j - 1, v);
    }
  }

  lemma OwnVote(sys: Sys, v: nat)
    requires v < |sys.servers|
    ensures BeatenCandidate(sys, v) ==> sys.servers[v].votedFor == Some(v)
  {
  }

  /** A vote for somebody else is never taken back in its term. */
  lemma RunVoteForAnotherStands(run: seq<Sys>, i: nat, j: nat, v: nat, c: nat)
    requires IsExecution(run) && i <= j < |run| && v < |run[i].servers| && v < |run[j].servers|
    requires run[i].servers[v].term == run[j].servers[v].term
    requires run[i].servers[v].votedFor == Some(c) && c != v
    ensures run[j].servers[v].votedFor == Some(c)
  {
    hide IsExecution, BeatenAt;
    if run[j].servers[v].votedFor != Some(c) {
      var k := RunVoteChanges(run, i, j, v);
    }
  }
}
