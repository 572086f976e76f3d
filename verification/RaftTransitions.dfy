/** Every step of the cluster keeps the invariant. */
module RaftTransitions {
  import opened Options
  import opened Sequences
  import opened RaftServer
  import opened RaftSystem
  import opened RaftInvariant
  import opened RaftSteps
  import opened RaftGrowth
  import opened RaftQuorum
  import opened RaftFollowers

  lemma PutPut(sys: Sys, s: nat, x: Server, y: Server)
    requires s < |sys.servers|
    ensures Put(Put(sys, s, x), s, y) == Put(sys, s, y)
    ensures Put(sys, s, sys.servers[s]) == sys
  {
  }

  lemma MessageFacts(sys: Sys, m: Message)
    requires MessagesInv(sys) && m in sys.messages
    ensures MessageOk(sys, m)
  {
  }

  // ------------------------------------------------------------ elections

  lemma TimeoutKeeps(sys: Sys, sys': Sys, s: nat)
    requires Inv(sys) && Timeout(sys, sys', s)
    ensures Inv(sys')
  {
    hide VotesInv, ElectionsInv, MessagesInv, AcksInv, ServersInv, HistoryInv, CommitsInv, AppliedInv;
    var b := StartElection(sys.servers[s], s);
    ServerFacts(sys, s);
    MoveSameLog(sys, s, b);
    SendKeeps(Put(sys, s, b), set p | p in Others(s, |sys.servers|) :: AskVote(s, p, ElectionRequest(b, s)));
  }

  lemma StepDownKeeps(sys: Sys, s: nat, term: nat)
    requires Inv(sys) && s < |sys.servers| && term > sys.servers[s].term
    ensures Inv(Put(sys, s, StepDown(sys.servers[s], term)))
  {
    hide VotesInv, ElectionsInv, MessagesInv, AcksInv, ServersInv, HistoryInv, CommitsInv, AppliedInv;
    ServerFacts(sys, s);
    MoveSameLog(sys, s, StepDown(sys.servers[s], term));
  }

  lemma SeeTermKeeps(sys: Sys, s: nat, term: nat)
    requires Inv(sys) && s < |sys.servers|
    ensures Inv(Put(sys, s, SeeTerm(sys.servers[s], term)))
  {
    hide Inv;
    if term > sys.servers[s].term {
      StepDownKeeps(sys, s, term);
    } else {
      PutPut(sys, s, sys.servers[s], sys.servers[s]);
    }
  }

  /** Only a follower of the request's term ever grants a vote to somebody else. */
  lemma GrantKeeps(sys: Sys, s: nat, req: VoteReq)
    requires Inv(sys) && s < |sys.servers| && req.candidate != s
    requires req.term >= sys.servers[s].term && Grants(SeeTerm(sys.servers[s], req.term), req)
    ensures var b := SeeTerm(sys.servers[s], req.term).(votedFor := Some(req.candidate));
            Inv(Put(sys, s, b)) && b.role.Follower? && b.term == req.term
  {
    hide VotesInv, ElectionsInv, MessagesInv, AcksInv, ServersInv, HistoryInv, CommitsInv, AppliedInv, Retains, GoodLog,
         CommittedPrefix;
    ServerFacts(sys, s);
    MoveSameLog(sys, s, SeeTerm(sys.servers[s], req.term).(votedFor := Some(req.candidate)));
  }

  /** A vote already on record for the term is for the candidate now voted for. */
  lemma VoteOnRecord(sys: Sys, s: nat, req: VoteReq)
    requires VotesInv(sys) && ElectionsInv(sys) && s < |sys.servers| && req.candidate != s
    requires sys.servers[s].term == req.term && sys.servers[s].votedFor == Some(req.candidate)
    ensures Key(s, req.term) in sys.votes ==> sys.votes[Key(s, req.term)].candidate == req.candidate
    ensures req.term in sys.elections ==> sys.elections[req.term].leader != s
  {
    var k := Key(s, req.term);
    if k in sys.votes {
      assert VoteOk(sys.history, sys.elections, sys.acks, sys.servers, k, sys.votes[k]);
    }
    if req.term in sys.elections {
      assert ElectionOk(sys.history, sys.elections, sys.acks, sys.votes, sys.servers, req.term);
    }
  }

  lemma HandleVoteKeeps(sys: Sys, sys': Sys, m: Message)
    requires Inv(sys) && HandleVoteStep(sys, sys', m)
    ensures Inv(sys')
  {
    hide VotesInv, ElectionsInv, MessagesInv, AcksInv, ServersInv, HistoryInv, CommitsInv, AppliedInv;
    MessageFacts(sys, m);
    var a, s, req := sys.servers[m.to], m.to, m.vote;
    var r := HandleVote(a, req);
    var sys1 := Put(sys, s, r.server);
    if r.resp.granted {
      GrantKeeps(sys, s, req);
      VoteOnRecord(sys1, s, req);
      RecordVoteKeeps(sys1, s, req);
      SendKeeps(RecordVote(sys1, s, req), {ReplyVote(s, m.from, req, r.resp)});
    } else {
      if req.term < a.term {
        PutPut(sys, s, a, a);
      } else {
        SeeTermKeeps(sys, s, req.term);
      }
      SendKeeps(sys1, {ReplyVote(s, m.from, req, r.resp)});
    }
  }

  // ------------------------------------------------------------ replication

  /** Every request reaches the leader's last entry, so its commit index never points beyond what it carries. */
  lemma BuiltRequestOk(sys: Sys, s: nat, p: nat)
    requires Inv(sys) && s < |sys.servers| && sys.servers[s].role.Leader? && p in sys.servers[s].peers
    ensures sys.servers[s].peers[p].nextIndex >= 1
    ensures var req := BuildAppend(sys.servers[s], s, sys.servers[s].peers[p]);
            && req.prevIndex + |req.entries| == |sys.servers[s].log|
            && AskAppendOk(sys.history, sys.elections, sys.commits, s, p, req)
  {
    hide VotesInv, ElectionsInv, MessagesInv, AcksInv, ServersInv, HistoryInv, CommitsInv, AppliedInv, Retains, GoodLog,
         CommittedPrefix;
    ServerFacts(sys, s);
    var sv := sys.servers[s];
    assert PeerOk(sys.acks, |sys.servers|, sv, s, p);
    Whole(sv.log);
  }

  lemma SendAppendKeeps(sys: Sys, sys': Sys, s: nat, p: nat)
    requires Inv(sys) && SendAppend(sys, sys', s, p)
    ensures Inv(sys')
  {
    hide Inv, AskAppendOk, BuildAppend;
    BuiltRequestOk(sys, s, p);
    SendKeeps(sys, {AskAppend(s, p, BuildAppend(sys.servers[s], s, sys.servers[s].peers[p]))});
  }

  /** Hearing from the leader of one's own term cannot depose a leader. */
  lemma SubmitKeeps(sys: Sys, m: Message)
    requires Inv(sys) && m.AskAppend? && m.to < |sys.servers| && MessageOk(sys, m)
    requires m.append.term >= sys.servers[m.to].term
    ensures var b := Submit(sys.servers[m.to], m.append.term);
            Inv(Put(sys, m.to, b)) && b.role.Follower? && b.term == m.append.term
  {
    hide VotesInv, ElectionsInv, MessagesInv, AcksInv, ServersInv, HistoryInv, CommitsInv, AppliedInv, Retains, GoodLog,
         CommittedPrefix;
    ServerFacts(sys, m.to);
    MoveSameLog(sys, m.to, Submit(sys.servers[m.to], m.append.term));
  }

  /** What a server of the request's term holds after merging. */
  ghost predicate MergedWith(h: LeaderLogs, log: Log, req: AppendReq, log': Log) {
    && req.term in h && req.prevIndex + |req.entries| <= |h[req.term]|
    && h[req.term][..req.prevIndex + |req.entries|] <= log'
    && GoodLog(h, log') && TermsUpTo(log', req.term) && KeepsCommon(log, log', h[req.term])
  }

  lemma LeaderLogOk(h: LeaderLogs, el: Elections, t: nat)
    requires HistoryInv(h, el) && t in h
    ensures GoodLog(h, h[t]) && TermsUpTo(h[t], t)
  {
    assert TermOk(h, el, t);
  }

  lemma MergeFits(h: LeaderLogs, el: Elections, commits: set<Commit>, log: Log, from: nat, to: nat, req: AppendReq)
    requires HistoryInv(h, el) && GoodLog(h, log) && TermsUpTo(log, req.term)
    requires AskAppendOk(h, el, commits, from, to, req) && Matches(log, req)
    ensures MergedWith(h, log, req, MergeEntries(log, req.prevIndex, req.entries))
  {
    hide HistoryInv, GoodLog, CommittedPrefix, MergeEntries;
    var leader, m := h[req.term], req.prevIndex + |req.entries|;
    LeaderLogOk(h, el, req.term);
    MatchedPrefix(h, log, leader, req);
    MergeIsPrefix(h, log, leader, req.prevIndex, m);
    if !(leader[..m] <= log) {
      MergeKeepsCommon(log, leader, m);
      GoodPrefix(h, leader, m);
    }
  }

  /** A follower's commit index moves only over entries its leader holds and has committed. */
  lemma FollowerCommit(h: LeaderLogs, commits: set<Commit>, log: Log, leader: Log, m: nat, k: nat, t: nat)
    requires k <= m <= |leader| && leader[..m] <= log && CommittedPrefix(h, commits, leader[..k], t)
    ensures k <= |log| && CommittedPrefix(h, commits, log[..k], t)
  {
    assert log[..k] == leader[..m][..k] == leader[..k];
  }

  lemma CommitMoves(sys: Sys, s: nat, k: nat)
    requires Inv(sys) && s < |sys.servers| && sys.servers[s].commitIndex <= k <= |sys.servers[s].log|
    requires CommittedPrefix(sys.history, sys.commits, sys.servers[s].log[..k], sys.servers[s].term)
    ensures Inv(Put(sys, s, sys.servers[s].(commitIndex := k)))
  {
    hide VotesInv, ElectionsInv, MessagesInv, AcksInv, ServersInv, HistoryInv, CommitsInv, AppliedInv, Retains, GoodLog,
         CommittedPrefix;
    ServerFacts(sys, s);
    var b := sys.servers[s].(commitIndex := k);
    SamePeers(sys.acks, |sys.servers|, sys.servers[s], b, s);
    MoveKeeps(sys, s, b);
  }

  lemma SamePeers(acks: Acks, size: nat, a: Server, b: Server, s: nat)
    requires PeersOk(acks, size, a, s) && b.role == a.role && b.peers == a.peers && b.log == a.log && b.term == a.term
    ensures PeersOk(acks, size, b, s)
  {
    if b.role.Leader? {
      forall p | p in b.peers
        ensures PeerOk(acks, size, b, s, p)
      {
        assert PeerOk(acks, size, a, s, p);
      }
    }
  }

  lemma AcceptKeeps(sys: Sys, m: Message)
    requires Inv(sys) && m.AskAppend? && m.to < |sys.servers| && MessageOk(sys, m)
    requires sys.servers[m.to].role.Follower? && sys.servers[m.to].term == m.append.term
    requires Matches(sys.servers[m.to].log, m.append)
    ensures var b := Accept(sys.servers[m.to], m.append);
            && Inv(Put(sys, m.to, b)) && b.role.Follower? && b.term == m.append.term
            && Holds(sys.history, b.log, b.term, m.append.prevIndex + |m.append.entries|)
  {
    hide VotesInv, ElectionsInv, MessagesInv, AcksInv, ServersInv, HistoryInv, CommitsInv, AppliedInv, Retains, GoodLog,
         CommittedPrefix, MergeEntries, KeepsCommon;
    var a, req, s := sys.servers[m.to], m.append, m.to;
    var end, leader := req.prevIndex + |req.entries|, sys.history[req.term];
    ServerFacts(sys, s);
    MergeFits(sys.history, sys.elections, sys.commits, a.log, m.from, s, req);
    var log' := MergeEntries(a.log, req.prevIndex, req.entries);
    TakeOver(sys, s, log');
    var a1 := a.(log := log');
    if req.leaderCommit > a.commitIndex {
      FollowerCommit(sys.history, sys.commits, log', leader, end, req.leaderCommit, req.term);
      CommitMoves(Put(sys, s, a1), s, req.leaderCommit);
      PutPut(sys, s, a1, a1.(commitIndex := req.leaderCommit));
    }
  }

  lemma RefusalOk(sys: Sys, m: Message, s1: Server)
    requires m.AskAppend? && MessageOk(sys, m) && !Matches(s1.log, m.append)
    ensures ReplyAppendOk(sys.history, sys.acks, m.to, m.append, Refusal(s1, m.append))
    ensures !Refusal(s1, m.append).success
  {
  }

  /** The three ways a request is answered, once the server is a follower of its term. */
  lemma AnswerKeeps(sys: Sys, m: Message)
    requires Inv(sys) && m.AskAppend? && m.to < |sys.servers| && MessageOk(sys, m)
             && Matches(sys.servers[m.to].log, m.append)
    requires sys.servers[m.to].role.Follower? && sys.servers[m.to].term == m.append.term
    ensures var sys1 := Put(sys, m.to, Accept(sys.servers[m.to], m.append));
            var sys2 := RecordAck(sys1, m.to, m.append.term, m.append.prevIndex + |m.append.entries|);
            && Inv(sys2)
            && ReplyAppendOk(sys2.history, sys2.acks, m.to, m.append, AppendResp(m.append.term, true, 0, 0))
  {
    hide Inv, Holds, Matches, Accept;
    AcceptKeeps(sys, m);
    RecordAckKeeps(Put(sys, m.to, Accept(sys.servers[m.to], m.append)), m.to, m.append.prevIndex + |m.append.entries|);
  }

  lemma ReplyOk(sys: Sys, from: nat, to: nat, req: AppendReq, resp: AppendResp)
    requires Inv(sys) && ReplyAppendOk(sys.history, sys.acks, from, req, resp)
    ensures Inv(Send(sys, {ReplyAppend(from, to, req, resp)}))
  {
    hide Inv;
    SendKeeps(sys, {ReplyAppend(from, to, req, resp)});
  }

  lemma MessageStays(sys: Sys, s: nat, b: Server, m: Message)
    requires s < |sys.servers| && m.AskAppend? && MessageOk(sys, m)
    ensures MessageOk(Put(sys, s, b), m)
  {
  }

  lemma HandleAppendKeeps(sys: Sys, sys': Sys, m: Message)
    requires Inv(sys) && HandleAppendStep(sys, sys', m)
    ensures Inv(sys')
  {
    hide VotesInv, ElectionsInv, MessagesInv, AcksInv, ServersInv, HistoryInv, CommitsInv, AppliedInv, Matches, Accept,
         Refusal, ReplyAppendOk;
    MessageFacts(sys, m);
    var a, s, req := sys.servers[m.to], m.to, m.append;
    if req.term < a.term {
      PutPut(sys, s, a, a);
      StaleReplyOk(sys, m, a.term);
      ReplyOk(sys, s, m.from, req, AppendResp(a.term, false, 0, 0));
    } else {
      SubmitKeeps(sys, m);
      var s1 := Submit(a, req.term);
      var sys1 := Put(sys, s, s1);
      MessageStays(sys, s, s1, m);
      if Matches(s1.log, req) {
        AnswerKeeps(sys1, m);
        PutPut(sys, s, s1, Accept(s1, req));
        var sys2 := RecordAck(Put(sys1, s, Accept(s1, req)), s, req.term, req.prevIndex + |req.entries|);
        ReplyOk(sys2, s, m.from, req, AppendResp(req.term, true, 0, 0));
      } else {
        RefusalOk(sys1, m, s1);
        ReplyOk(sys1, s, m.from, req, Refusal(s1, req));
      }
    }
  }

  lemma StaleReplyOk(sys: Sys, m: Message, term: nat)
    requires m.AskAppend? && MessageOk(sys, m) && m.append.term < term
    ensures ReplyAppendOk(sys.history, sys.acks, m.to, m.append, AppendResp(term, false, 0, 0))
  {
  }

  // ------------------------------------------------------------ responses

  /** Changing one peer's indexes within the leader's log and the peer's acknowledgements. */
  lemma PeerMoves(sys: Sys, s: nat, p: nat, peer: Peer)
    requires Inv(sys) && s < |sys.servers| && sys.servers[s].role.Leader? && p in sys.servers[s].peers
    requires 1 <= peer.nextIndex <= |sys.servers[s].log| + 1 && peer.matchIndex <= |sys.servers[s].log|
    requires peer.matchIndex == sys.servers[s].peers[p].matchIndex ||
             (Key(p, sys.servers[s].term) in sys.acks && sys.acks[Key(p, sys.servers[s].term)] >= peer.matchIndex)
    ensures Inv(Put(sys, s, sys.servers[s].(peers := sys.servers[s].peers[p := peer])))
  {
    hide VotesInv, ElectionsInv, MessagesInv, AcksInv, ServersInv, HistoryInv, CommitsInv, AppliedInv, Retains, GoodLog,
         CommittedPrefix;
    var a := sys.servers[s];
    var b := a.(peers := a.peers[p := peer]);
    ServerFacts(sys, s);
    assert PeerOk(sys.acks, |sys.servers|, a, s, p);
    forall r | r in b.peers
      ensures PeerOk(sys.acks, |sys.servers|, b, s, r)
    {
      assert r != p ==> PeerOk(sys.acks, |sys.servers|, a, s, r);
    }
    MoveSameLog(sys, s, b);
  }

  lemma LeaderLog(sys: Sys, s: nat)
    requires ServersInv(sys) && s < |sys.servers| && sys.servers[s].role.Leader?
    ensures sys.servers[s].term in sys.history && sys.servers[s].log == sys.history[sys.servers[s].term]
  {
    assert ServerOk(sys.history, sys.elections, sys.commits, sys.servers[s], s);
  }

  lemma ProgressKeeps(sys: Sys, s: nat, p: nat, req: AppendReq, resp: AppendResp)
    requires Inv(sys) && s < |sys.servers| && sys.servers[s].role.Leader? && p in sys.servers[s].peers
    requires sys.servers[s].term == req.term && resp.success && ReplyAppendOk(sys.history, sys.acks, p, req, resp)
    ensures Inv(Put(sys, s, Progress(sys.servers[s], p, req)))
  {
    hide VotesInv, ElectionsInv, MessagesInv, AcksInv, ServersInv, HistoryInv, CommitsInv, AppliedInv;
    LeaderLog(sys, s);
    if req.entries == [] {
      PutPut(sys, s, sys.servers[s], sys.servers[s]);
    } else {
      var m := req.prevIndex + |req.entries|;
      PeerMoves(sys, s, p, Peer(m + 1, m));
    }
  }

  lemma BackUpKeeps(sys: Sys, s: nat, p: nat, req: AppendReq, resp: AppendResp)
    requires Inv(sys) && s < |sys.servers| && sys.servers[s].role.Leader? && p in sys.servers[s].peers
    requires sys.servers[s].term == req.term >= resp.term && !resp.success
             && ReplyAppendOk(sys.history, sys.acks, p, req, resp)
    ensures Inv(Put(sys, s, BackUp(sys.servers[s], p, resp)))
  {
    hide VotesInv, ElectionsInv, MessagesInv, AcksInv, ServersInv, HistoryInv, CommitsInv, AppliedInv, LastOfTerm;
    LeaderLog(sys, s);
    var a := sys.servers[s];
    assert PeerOk(sys.acks, |sys.servers|, a, s, p) by { ServerFacts(sys, s); }
    PeerMoves(sys, s, p, a.peers[p].(nextIndex := Backup(a.log, resp)));
  }

  /** What the quorum index counts, a majority has acknowledged. */
  lemma HoldersAcked(acks: Acks, size: nat, sv: Server, s: nat, k: nat)
    requires PeersOk(acks, size, sv, s) && sv.role.Leader? && k >= 1
    ensures AllAcked(acks, Holders(MatchIndexes(sv, s, size), k), sv.term, k)
  {
    forall p | p in Holders(MatchIndexes(sv, s, size), k)
      ensures Key(p, sv.term) in acks && acks[Key(p, sv.term)] >= k
    {
      assert MatchIndexes(sv, s, size)[p] == MatchOf(sv, s, p);
      if p != s {
        assert PeerOk(acks, size, sv, s, p);
      }
    }
  }

  lemma QuorumCommitOk(sys: Sys, s: nat, k: nat)
    requires ServersInv(sys) && s < |sys.servers| && sys.servers[s].role.Leader?
    requires 1 <= k <= |sys.servers[s].log| && sys.servers[s].log[k - 1].term == sys.servers[s].term
    requires k <= QuorumIndex(sys.servers[s], s, |sys.servers|)
    ensures CommitOk(sys.history, sys.acks, |sys.servers|, Commit(sys.servers[s].term, k))
  {
    var sv, size := sys.servers[s], |sys.servers|;
    assert PeersOk(sys.acks, size, sv, s);
    LeaderLog(sys, s);
    hide ServersInv, QuorumIndex, MatchIndexes, Holders;
    QuorumIndexIsGreatest(sv, s, size, k);
    HoldersAcked(sys.acks, size, sv, s, k);
  }

  lemma AdvanceCommitKeeps(sys: Sys, s: nat)
    requires Inv(sys) && s < |sys.servers| && sys.servers[s].role.Leader?
    ensures var before, after := sys.servers[s], AdvanceCommit(sys.servers[s], s, |sys.servers|);
            Inv(RecordCommit(Put(sys, s, after), before, after))
  {
    hide VotesInv, ElectionsInv, MessagesInv, AcksInv, ServersInv, HistoryInv, CommitsInv, AppliedInv, CommitOk,
         QuorumIndex;
    var before, after := sys.servers[s], AdvanceCommit(sys.servers[s], s, |sys.servers|);
    if after == before {
      PutPut(sys, s, before, before);
    } else {
      var k := after.commitIndex;
      var c := Commit(before.term, k);
      QuorumCommitOk(sys, s, k);
      RecordCommitKeeps(sys, c);
      LeaderLog(sys, s);
      OwnCommit(sys.history, sys.commits + {c}, before.log, c);
      CommitMoves(sys.(commits := sys.commits + {c}), s, k);
    }
  }

  lemma OwnCommit(h: LeaderLogs, commits: set<Commit>, log: Log, c: Commit)
    requires c in commits && c.term in h && h[c.term] == log && c.index <= |log|
    ensures CommittedPrefix(h, commits, log[..c.index], c.term)
  {
    assert CoveredBy(h, log[..c.index], c);
  }

  lemma AppendReplyKeeps(sys: Sys, sys': Sys, m: Message)
    requires Inv(sys) && AppendReplyStep(sys, sys', m)
    ensures Inv(sys')
  {
    hide VotesInv, ElectionsInv, MessagesInv, AcksInv, ServersInv, HistoryInv, CommitsInv, AppliedInv, AdvanceCommit,
         ReplyAppendOk;
    MessageFacts(sys, m);
    var before, s, p := sys.servers[m.to], m.to, m.from;
    if m.appended.success {
      ProgressKeeps(sys, s, p, m.append, m.appended);
      var sv := Progress(before, p, m.append);
      AdvanceCommitKeeps(Put(sys, s, sv), s);
      PutPut(sys, s, sv, AdvanceCommit(sv, s, |sys.servers|));
    } else {
      BackUpKeeps(sys, s, p, m.append, m.appended);
    }
  }

  // ------------------------------------------------------------ applying and crashing

  lemma AppliedNext(h: LeaderLogs, commits: set<Commit>, log: Log, i: nat, k: nat, t: nat)
    requires GoodLog(h, log) && i < k <= |log| && CommittedPrefix(h, commits, log[..k], t)
    ensures AppliedOk(h, commits, log[i])
  {
    assert EntryOk(h, log, i);
    var c :| c in commits && c.term <= t && CoveredBy(h, log[..k], c);
    assert log[..k][i] == h[c.term][..c.index][i];
  }

  lemma ApplyKeeps(sys: Sys, sys': Sys, s: nat)
    requires Inv(sys) && ApplyStep(sys, sys', s)
    ensures Inv(sys')
  {
    hide VotesInv, ElectionsInv, MessagesInv, AcksInv, ServersInv, HistoryInv, CommitsInv, AppliedInv, Retains, GoodLog,
         CommittedPrefix, AppliedOk;
    var sv := sys.servers[s];
    var b := sv.(lastApplied := sv.lastApplied + 1);
    ServerFacts(sys, s);
    AppliedNext(sys.history, sys.commits, sv.log, sv.lastApplied, sv.commitIndex, sv.term);
    SamePeers(sys.acks, |sys.servers|, sv, b, s);
    MoveSameLog(sys, s, b);
    RecordAppliedKeeps(Put(sys, s, b), sv.log[sv.lastApplied]);
  }

  /** A crash, with the term as it was or already raised by a half-done write. */
  lemma RestartKeeps(sys: Sys, s: nat, term: nat)
    requires Inv(sys) && s < |sys.servers| && term >= sys.servers[s].term
    ensures Inv(Put(sys, s, Restarted(sys.servers[s]).(term := term)))
  {
    hide VotesInv, ElectionsInv, MessagesInv, AcksInv, ServersInv, HistoryInv, CommitsInv, AppliedInv;
    ServerFacts(sys, s);
    MoveSameLog(sys, s, Restarted(sys.servers[s]).(term := term));
  }

  lemma CrashInHandlerKeeps(sys: Sys, sys': Sys, m: Message)
    requires Inv(sys) && CrashInHandler(sys, sys', m)
    ensures Inv(sys')
  {
    hide VotesInv, ElectionsInv, MessagesInv, AcksInv, ServersInv, HistoryInv, CommitsInv, AppliedInv;
    var s, sv := m.to, sys.servers[m.to];
    var s1 := if m.AskAppend? then Submit(sv, TermOf(m)) else SeeTerm(sv, TermOf(m));
    if m.AskAppend? {
      MessageFacts(sys, m);
      SubmitKeeps(sys, m);
    } else {
      SeeTermKeeps(sys, s, TermOf(m));
    }
    RestartKeeps(Put(sys, s, s1), s, s1.term);
    PutPut(sys, s, s1, Restarted(s1));
  }

  lemma CutFits(h: LeaderLogs, el: Elections, commits: set<Commit>, log: Log, from: nat, to: nat, req: AppendReq,
      cut: nat)
    requires GoodLog(h, log) && TermsUpTo(log, req.term) && AskAppendOk(h, el, commits, from, to, req)
    requires FirstConflict(log, req, cut)
    ensures GoodLog(h, log[..cut]) && TermsUpTo(log[..cut], req.term) && KeepsCommon(log, log[..cut], h[req.term])
  {
    GoodPrefix(h, log, cut);
    assert req.entries[cut - req.prevIndex] == h[req.term][cut];
    hide GoodLog, CommittedPrefix;
    CutKeepsCommon(log, h[req.term], cut);
  }

  lemma CrashInAppendKeeps(sys: Sys, sys': Sys, m: Message, cut: nat)
    requires Inv(sys) && CrashInAppend(sys, sys', m, cut)
    ensures Inv(sys')
  {
    hide VotesInv, ElectionsInv, MessagesInv, AcksInv, ServersInv, HistoryInv, CommitsInv, AppliedInv, Retains, GoodLog,
         CommittedPrefix, KeepsCommon, Matches, FirstConflict;
    MessageFacts(sys, m);
    SubmitKeeps(sys, m);
    var s, s1 := m.to, Submit(sys.servers[m.to], m.append.term);
    var sys1 := Put(sys, s, s1);
    ServerFacts(sys1, s);
    CutFits(sys.history, sys.elections, sys.commits, s1.log, m.from, s, m.append, cut);
    assert cut <= |s1.log| by { CutWithin(s1.log, m.append, cut); }
    var s2 := s1.(log := s1.log[..cut]);
    TakeOver(sys1, s, s2.log);
    RestartKeeps(Put(sys1, s, s2), s, s2.term);
    PutPut(sys, s, s1, s2);
    PutPut(sys, s, s2, Restarted(s2));
  }

  lemma CutWithin(log: Log, req: AppendReq, cut: nat)
    requires FirstConflict(log, req, cut)
    ensures cut <= |log|
  {
  }
}
