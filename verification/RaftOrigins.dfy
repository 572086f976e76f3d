/** Where messages come from: who sent what, when, and what it was then; and how terms spread. */
module RaftOrigins {
  import opened Numbers
  import opened Options
  import DocumentFsm
  import opened RaftServer
  import opened RaftSystem

  // ------------------------------------------------------------ what a sender was doing

  /** The sender has just stood for election, and the request describes its log. */
  ghost predicate Stands(sys: Sys, sys': Sys, m: Message) {
    && m.AskVote? && m.from < |sys.servers| && m.from < |sys'.servers| && m.from != m.to
    && sys.servers[m.from].term + 1 == m.vote.term && sys'.servers[m.from].role.Candidate?
    && sys'.servers[m.from].log == sys.servers[m.from].log
    && m.vote == VoteReq(m.vote.term, m.from, |sys.servers[m.from].log|, LastTerm(sys.servers[m.from].log))
  }

  /** The reply is what its sender answers in this state. */
  ghost predicate AnswersVote(sys: Sys, m: Message) {
    && m.ReplyVote? && m.from < |sys.servers| && AskVote(m.to, m.from, m.vote) in sys.messages
    && m.voted == HandleVote(sys.servers[m.from], m.vote).resp
  }

  /** The sender leads the term and sends what it then has for this peer. */
  ghost predicate Replicates(sys: Sys, m: Message) {
    && m.AskAppend? && m.from < |sys.servers|
    && var sv := sys.servers[m.from];
       && sv.role.Leader? && m.to in sv.peers && sv.peers[m.to].nextIndex >= 1
       && m.append == BuildAppend(sv, m.from, sv.peers[m.to])
  }

  /** The reply is what its sender answers in this state. */
  ghost predicate Answers(sys: Sys, m: Message) {
    && m.ReplyAppend? && m.from < |sys.servers| && AskAppend(m.to, m.from, m.append) in sys.messages
    && m.appended == HandleAppend(sys.servers[m.from], m.append).resp
  }

  /** The message was sent in this step, and carries the term its sender then had. */
  ghost predicate SentBy(sys: Sys, sys': Sys, m: Message) {
    && m.from < |sys'.servers| && TermOf(m) == sys'.servers[m.from].term
    && match m
       case AskVote(_, _, _) => Stands(sys, sys', m)
       case ReplyVote(_, _, _, _) => AnswersVote(sys, m)
       case AskAppend(_, _, _) => Replicates(sys, m)
       case ReplyAppend(_, _, _, _) => Answers(sys, m)
  }

  ghost predicate SentAt(run: seq<Sys>, i: nat, m: Message) {
    i + 1 < |run| && SentBy(run[i], run[i + 1], m)
  }

  ghost predicate NothingSent(sys: Sys, sys': Sys) {
    sys'.messages <= sys.messages
  }

  // ------------------------------------------------------------ step by step

  lemma TimeoutSends(sys: Sys, sys': Sys, s: nat, m: Message)
    requires Timeout(sys, sys', s) && m in sys'.messages && m !in sys.messages
    ensures SentBy(sys, sys', m)
  {
    hide Ids, LastTerm;
  }

  lemma HandleVoteSends(sys: Sys, sys': Sys, ask: Message, m: Message)
    requires HandleVoteStep(sys, sys', ask) && m in sys'.messages && m !in sys.messages
    ensures SentBy(sys, sys', m)
  {
    hide Grants;
  }

  lemma SendAppendSends(sys: Sys, sys': Sys, s: nat, p: nat, m: Message)
    requires SendAppend(sys, sys', s, p) && m in sys'.messages && m !in sys.messages
    ensures SentBy(sys, sys', m)
  {
  }

  lemma HandleAppendSends(sys: Sys, sys': Sys, ask: Message, m: Message)
    requires HandleAppendStep(sys, sys', ask) && m in sys'.messages && m !in sys.messages
    ensures SentBy(sys, sys', m)
  {
    AnswerTerm(sys.servers[ask.to], ask.append);
    hide HandleAppend;
  }

  lemma AnswerTerm(s: Server, req: AppendReq)
    ensures HandleAppend(s, req).resp.term == HandleAppend(s, req).server.term
  {
    hide MergeEntries, RunStart;
  }

  lemma WinSendsNothing(sys: Sys, sys': Sys, s: nat, q: set<nat>)
    requires Win(sys, sys', s, q)
    ensures NothingSent(sys, sys')
  {
    hide GrantedBy, IsQuorum, BecomeLeader;
  }

  lemma LeaderAppendSendsNothing(sys: Sys, sys': Sys, s: nat, data: Option<DocumentFsm.Submission>)
    requires LeaderAppend(sys, sys', s, data)
    ensures NothingSent(sys, sys')
  {
    hide AppendCommand;
  }

  lemma RepliesSendNothing(sys: Sys, sys': Sys, m: Message)
    requires VoteReplyStep(sys, sys', m) || AppendReplyDeposes(sys, sys', m) || AppendReplyStep(sys, sys', m)
    ensures NothingSent(sys, sys')
  {
    hide HandleAppendResp, StepDown;
  }

  lemma LocalStepsSendNothing(sys: Sys, sys': Sys)
    requires (exists s :: ApplyStep(sys, sys', s)) || (exists s :: Crash(sys, sys', s))
             || (exists s, term :: CrashInPersist(sys, sys', s, term))
    ensures NothingSent(sys, sys')
  {
    hide Reachable, Restarted;
  }

  lemma CrashesSendNothing(sys: Sys, sys': Sys)
    requires (exists m :: CrashInHandler(sys, sys', m)) || (exists m, cut :: CrashInAppend(sys, sys', m, cut))
    ensures NothingSent(sys, sys')
  {
    hide Restarted, Submit, SeeTerm, Matches, FirstConflict;
  }

  lemma NewMessageSent(sys: Sys, sys': Sys, m: Message)
    requires Next(sys, sys') && m in sys'.messages && m !in sys.messages
    ensures SentBy(sys, sys', m)
  {
    hide Timeout, HandleVoteStep, VoteReplyStep, Win, LeaderAppend, SendAppend, HandleAppendStep,
         AppendReplyDeposes, AppendReplyStep, ApplyStep, Crash, CrashInPersist, CrashInHandler, CrashInAppend, SentBy;
    if s :| Timeout(sys, sys', s) {
      TimeoutSends(sys, sys', s, m);
    } else if ask :| HandleVoteStep(sys, sys', ask) {
      HandleVoteSends(sys, sys', ask, m);
    } else if s, p :| SendAppend(sys, sys', s, p) {
      SendAppendSends(sys, sys', s, p, m);
    } else if ask :| HandleAppendStep(sys, sys', ask) {
      HandleAppendSends(sys, sys', ask, m);
    } else if s, q :| Win(sys, sys', s, q) {
      WinSendsNothing(sys, sys', s, q);
    } else if s, data :| LeaderAppend(sys, sys', s, data) {
      LeaderAppendSendsNothing(sys, sys', s, data);
    } else if r :| VoteReplyStep(sys, sys', r) {
      RepliesSendNothing(sys, sys', r);
    } else if r :| AppendReplyDeposes(sys, sys', r) {
      RepliesSendNothing(sys, sys', r);
    } else if r :| AppendReplyStep(sys, sys', r) {
      RepliesSendNothing(sys, sys', r);
    } else if (exists c :: CrashInHandler(sys, sys', c)) || (exists c, cut :: CrashInAppend(sys, sys', c, cut)) {
      CrashesSendNothing(sys, sys');
    } else {
      LocalStepsSendNothing(sys, sys');
    }
  }

  /** Every message in flight was sent at an earlier moment, by its sender as it was then. */
  lemma {:induction false} RunMessageWasSent(run: seq<Sys>, j: nat, m: Message) returns (i: nat)
    requires IsExecution(run) && j < |run| && m in run[j].messages
    ensures i < j && SentAt(run, i, m)
    decreases j
  {
    hide Next, SentBy;
    if m in run[j - 1].messages {
      i := RunMessageWasSent(run, j - 1, m);
    } else {
      i := j - 1;
      hide Init;
      NewMessageSent(run[j - 1], run[j - 1 + 1], m);
    }
  }

  // ------------------------------------------------------------ terms

  /** A server's term moves by one, or to the term of a message. */
  ghost predicate TermMoves(sys: Sys, sys': Sys, s: nat) {
    && s < |sys'.servers| == |sys.servers|
    && (sys'.servers[s].term > sys.servers[s].term + 1 ==>
          exists m :: m in sys.messages && TermOf(m) == sys'.servers[s].term)
  }

  lemma TimeoutTerms(sys: Sys, sys': Sys, t: nat, s: nat)
    requires Timeout(sys, sys', t) && s < |sys'.servers|
    ensures TermMoves(sys, sys', s)
  {
    hide ElectionRequest, Others;
  }

  lemma VoteTerms(sys: Sys, sys': Sys, m: Message, s: nat)
    requires HandleVoteStep(sys, sys', m) || VoteReplyStep(sys, sys', m)
    requires s < |sys'.servers|
    ensures TermMoves(sys, sys', s)
  {
    hide Grants;
  }

  lemma WinTerms(sys: Sys, sys': Sys, w: nat, q: set<nat>, s: nat)
    requires Win(sys, sys', w, q) && s < |sys'.servers|
    ensures TermMoves(sys, sys', s)
  {
    hide IsQuorum, GrantedBy, FreshPeers;
  }

  lemma LeaderTerms(sys: Sys, sys': Sys, s: nat)
    requires (exists l, data :: LeaderAppend(sys, sys', l, data)) || (exists l, p :: SendAppend(sys, sys', l, p))
    requires s < |sys'.servers|
    ensures TermMoves(sys, sys', s)
  {
    hide BuildAppend;
  }

  lemma AppendTerms(sys: Sys, sys': Sys, m: Message, s: nat)
    requires HandleAppendStep(sys, sys', m) && s < |sys'.servers|
    ensures TermMoves(sys, sys', s)
  {
    AppendedTerm(sys.servers[m.to], m.append);
    hide HandleAppend;
  }

  lemma AppendedTerm(s: Server, req: AppendReq)
    ensures HandleAppend(s, req).server.term == Max(s.term, req.term)
    ensures req.term > s.term ==> HandleAppend(s, req).server.role.Follower?
  {
    hide MergeEntries, RunStart;
  }

  lemma ReplyTerms(sys: Sys, sys': Sys, m: Message, s: nat)
    requires AppendReplyDeposes(sys, sys', m) || AppendReplyStep(sys, sys', m)
    requires s < |sys'.servers|
    ensures TermMoves(sys, sys', s)
  {
    hide QuorumIndex, Backup;
  }

  lemma LocalTerms(sys: Sys, sys': Sys, l: nat, s: nat)
    requires ApplyStep(sys, sys', l) || Crash(sys, sys', l)
    requires s < |sys'.servers|
    ensures TermMoves(sys, sys', s)
  {
  }

  lemma PersistTerms(sys: Sys, sys': Sys, l: nat, term: nat, s: nat)
    requires CrashInPersist(sys, sys', l, term) && s < |sys'.servers|
    ensures TermMoves(sys, sys', s)
  {
  }

  lemma CrashTerms(sys: Sys, sys': Sys, s: nat)
    requires (exists m :: CrashInHandler(sys, sys', m)) || (exists m, cut :: CrashInAppend(sys, sys', m, cut))
    requires s < |sys'.servers|
    ensures TermMoves(sys, sys', s)
  {
    hide Matches, FirstConflict;
  }

  lemma NextTerms(sys: Sys, sys': Sys, s: nat)
    requires Next(sys, sys') && s < |sys'.servers|
    ensures TermMoves(sys, sys', s)
  {
    hide Timeout, HandleVoteStep, VoteReplyStep, Win, LeaderAppend, SendAppend, HandleAppendStep,
         AppendReplyDeposes, AppendReplyStep, ApplyStep, Crash, CrashInPersist, CrashInHandler, CrashInAppend,
         TermMoves;
    if t :| Timeout(sys, sys', t) {
      TimeoutTerms(sys, sys', t, s);
    } else if m :| HandleVoteStep(sys, sys', m) || VoteReplyStep(sys, sys', m) {
      VoteTerms(sys, sys', m, s);
    } else if w, q :| Win(sys, sys', w, q) {
      WinTerms(sys, sys', w, q, s);
    } else if (exists l, data :: LeaderAppend(sys, sys', l, data)) || (exists l, p :: SendAppend(sys, sys', l, p)) {
      LeaderTerms(sys, sys', s);
    } else if m :| HandleAppendStep(sys, sys', m) {
      AppendTerms(sys, sys', m, s);
    } else if m :| AppendReplyDeposes(sys, sys', m) || AppendReplyStep(sys, sys', m) {
      ReplyTerms(sys, sys', m, s);
    } else if (exists c :: CrashInHandler(sys, sys', c)) || (exists c, cut :: CrashInAppend(sys, sys', c, cut)) {
      CrashTerms(sys, sys', s);
    } else if l :| ApplyStep(sys, sys', l) || Crash(sys, sys', l) {
      LocalTerms(sys, sys', l, s);
    } else {
      var l, term :| CrashInPersist(sys, sys', l, term);
      PersistTerms(sys, sys', l, term, s);
    }
  }

  /** The step in which a server takes the message in. */
  ghost predicate Hears(sys: Sys, sys': Sys, m: Message) {
    || HandleVoteStep(sys, sys', m) || VoteReplyStep(sys, sys', m) || HandleAppendStep(sys, sys', m)
    || AppendReplyDeposes(sys, sys', m) || AppendReplyStep(sys, sys', m) || CrashInHandler(sys, sys', m)
  }

  ghost predicate Heard(sys: Sys, sys': Sys, m: Message) {
    && m.to < |sys.servers| == |sys'.servers|
    && var was, now := sys.servers[m.to], sys'.servers[m.to];
       now.term == Max(was.term, TermOf(m)) && (TermOf(m) > was.term ==> now.role.Follower?)
  }

  lemma HearsVote(sys: Sys, sys': Sys, m: Message)
    requires HandleVoteStep(sys, sys', m) || VoteReplyStep(sys, sys', m)
    ensures Heard(sys, sys', m)
  {
    hide Grants;
  }

  lemma HearsAppend(sys: Sys, sys': Sys, m: Message)
    requires HandleAppendStep(sys, sys', m)
    ensures Heard(sys, sys', m)
  {
    AppendedTerm(sys.servers[m.to], m.append);
    hide HandleAppend;
  }

  lemma HearsReply(sys: Sys, sys': Sys, m: Message)
    requires AppendReplyDeposes(sys, sys', m) || AppendReplyStep(sys, sys', m)
    ensures Heard(sys, sys', m)
  {
    hide QuorumIndex, Backup;
  }

  lemma HearsAndCrashes(sys: Sys, sys': Sys, m: Message)
    requires CrashInHandler(sys, sys', m)
    ensures Heard(sys, sys', m)
  {
  }

  /**
   * Whatever it answers, and even if it crashes over it, a server that hears of a later term is a
   * follower in that term, and otherwise stays in its own.
   */
  lemma HearingRaisesTerm(sys: Sys, sys': Sys, m: Message)
    requires Hears(sys, sys', m)
    ensures Heard(sys, sys', m)
  {
    hide Heard, HandleVoteStep, VoteReplyStep, HandleAppendStep, AppendReplyDeposes, AppendReplyStep, CrashInHandler;
    if HandleVoteStep(sys, sys', m) || VoteReplyStep(sys, sys', m) {
      HearsVote(sys, sys', m);
    } else if HandleAppendStep(sys, sys', m) {
      HearsAppend(sys, sys', m);
    } else if CrashInHandler(sys, sys', m) {
      HearsAndCrashes(sys, sys', m);
    } else {
      HearsReply(sys, sys', m);
    }
  }

  /** No term is ever skipped: each up to any server's was some server's at that moment or before. */
  lemma {:induction false} RunTermsAreDense(run: seq<Sys>, i: nat, s: nat, t: nat) returns (j: nat, r: nat)
    requires IsExecution(run) && i < |run| && s < |run[i].servers| && t <= run[i].servers[s].term
    ensures j <= i && r < |run[j].servers| && run[j].servers[r].term == t
    decreases i
  {
    hide Next, Init;
    if i == 0 {
      FirstTerms(run, s);
    }
    if t == run[i].servers[s].term {
      return i, s;
    }
    var sys, sys' := run[i - 1], run[i - 1 + 1];
    NextTerms(sys, sys', s);
    if t <= sys.servers[s].term {
      j, r := RunTermsAreDense(run, i - 1, s, t);
    } else {
      var m :| m in sys.messages && TermOf(m) == sys'.servers[s].term;
      var k := RunMessageWasSent(run, i - 1, m);
      j, r := RunTermsAreDense(run, k + 1, m.from, t);
    }
  }

  lemma FirstTerms(run: seq<Sys>, s: nat)
    requires IsExecution(run) && s < |run[0].servers|
    ensures run[0].servers[s].term == 0
  {
    hide Next;
  }
}
