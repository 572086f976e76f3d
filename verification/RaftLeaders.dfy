/** Winning an election and appending as leader keep the invariant. */
module RaftLeaders {
  import opened Options
  import opened DocumentFsm
  import opened RaftServer
  import opened RaftSystem
  import opened RaftInvariant
  import opened RaftSafety
  import opened RaftSteps
  import opened RaftGrowth

  // ------------------------------------------------------------ winning

  ghost predicate FreeTerm(sys: Sys, s: nat) {
    && s < |sys.servers| && sys.servers[s].role.Candidate?
    && sys.servers[s].term !in sys.elections && sys.servers[s].term !in sys.history
    && forall v: nat :: Key(v, sys.servers[s].term) !in sys.acks
  }

  lemma NewTermIsFree(sys: Sys, s: nat, q: set<nat>)
    requires Inv(sys) && WonBy(sys, s, q)
    ensures FreeTerm(sys, s) && WithinHistory(sys.history, sys.acks)
  {
    hide VotesInv, ElectionsInv, MessagesInv, AcksInv, ServersInv, CommitsInv, AppliedInv, TermOk;
    ElectionSafety(sys, s, q);
    AcksWithin(sys.history, sys.elections, sys.acks, sys.servers);
  }

  /** A candidate has voted for nobody else in its term. */
  lemma CandidateDidNotVote(sys: Sys, s: nat, m: Message)
    requires VotesInv(sys) && MessagesInv(sys) && FreeTerm(sys, s)
    requires m in sys.messages && m.ReplyVote? && m.voted.granted && m.vote.term == sys.servers[s].term
    ensures m.from != s
  {
    assert MessageOk(sys, m);
    var k := Key(m.from, m.vote.term);
    assert VoteOk(sys.history, sys.elections, sys.acks, sys.servers, k, sys.votes[k]);
  }

  function SupporterLog(sys: Sys, s: nat, v: nat): Log
    requires s < |sys.servers|
  {
    var sv := sys.servers[s];
    if v == s || Key(v, sv.term) !in sys.votes then sv.log else sys.votes[Key(v, sv.term)].log
  }

  /** A log the winner's beats, kept by a server that has reached the winner's term. */
  ghost predicate Supports(sys: Sys, s: nat, v: nat, vlog: Log)
    requires s < |sys.servers|
  {
    var t, log := sys.servers[s].term, sys.servers[s].log;
    && v < |sys.servers| && t <= sys.servers[v].term && GoodLog(sys.history, vlog)
    && UpToDate(LastTerm(log), |log|, LastTerm(vlog), |vlog|)
    && Retains(sys.history, sys.elections, sys.acks, v, vlog, t)
    && (v != s ==> Key(v, t) in sys.votes && sys.votes[Key(v, t)].candidate == s)
  }

  lemma WinnerSupportsItself(sys: Sys, s: nat)
    requires ServersInv(sys) && AcksInv(sys.history, sys.elections, sys.acks, sys.servers) && FreeTerm(sys, s)
    ensures Supports(sys, s, s, sys.servers[s].log)
  {
    hide AcksInv, ServersInv, Retains, GoodLog, CommittedPrefix;
    ServerFacts(sys, s);
    RetainsAtVote(sys.history, sys.elections, sys.acks, s, sys.servers[s].log, sys.servers[s].term);
  }

  lemma VoterSupports(sys: Sys, s: nat, q: set<nat>, v: nat)
    requires VotesInv(sys) && MessagesInv(sys) && FreeTerm(sys, s) && WonBy(sys, s, q) && v in q && v != s
    ensures Key(v, sys.servers[s].term) in sys.votes
    ensures Supports(sys, s, v, sys.votes[Key(v, sys.servers[s].term)].log)
  {
    hide MessagesInv, Retains, GoodLog;
    GrantedFacts(sys, s, q, v);
    var k := Key(v, sys.servers[s].term);
    assert VoteOk(sys.history, sys.elections, sys.acks, sys.servers, k, sys.votes[k]);
    hide VotesInv;
  }

  /** What each supporter of the winner had when it voted. */
  lemma SupporterOk(sys: Sys, s: nat, q: set<nat>, v: nat)
    requires Inv(sys) && FreeTerm(sys, s) && WonBy(sys, s, q) && v in q
    ensures Supports(sys, s, v, SupporterLog(sys, s, v))
  {
    hide VotesInv, ElectionsInv, MessagesInv, AcksInv, ServersInv, HistoryInv, CommitsInv, AppliedInv, Retains, GoodLog;
    if v == s {
      WinnerSupportsItself(sys, s);
    } else {
      VoterSupports(sys, s, q, v);
    }
  }

  /** The new election's record, supporter by supporter. */
  lemma NewVoterOk(sys: Sys, sys1: Sys, sys': Sys, s: nat, q: set<nat>, v: nat)
    requires Inv(sys) && FreeTerm(sys, s) && WonBy(sys, s, q) && v in q
    requires sys1 == Put(sys, s, BecomeLeader(sys.servers[s], s, |sys.servers|))
    requires sys' == RecordAck(RecordElection(sys1, s, q), s, sys.servers[s].term, |sys.servers[s].log|)
             && Grows(sys1, sys')
    ensures VoterOk(sys'.history, sys'.elections, sys'.acks, sys'.votes, sys'.servers, sys.servers[s].term, v)
  {
    SupporterOk(sys, s, q, v);
    hide Inv, GoodLog, Retains, WonBy, Grows, FreeTerm;
    var t, vlog := sys.servers[s].term, SupporterLog(sys, s, v);
    assert sys'.elections[t].voters[v] == vlog && sys1.votes == sys.votes == sys'.votes;
    GoodLogGrows(sys1, sys', vlog);
    GrowRetains(sys1, sys', v, vlog, t);
  }

  lemma GoodLogGrows(sys: Sys, sys': Sys, log: Log)
    requires Grows(sys, sys') && GoodLog(sys.history, log)
    ensures GoodLog(sys'.history, log)
  {
    GoodLogExtends(sys.history, sys'.history, log);
  }

  lemma NewHistoryOk(h: LeaderLogs, el: Elections, t: nat, e: Election)
    requires HistoryInv(h, el) && t !in h && t >= 1 && GoodLog(h, e.log) && TermsUpTo(e.log, t)
    ensures HistoryInv(h[t := e.log], el[t := e])
  {
    var h', el' := h[t := e.log], el[t := e];
    forall u | u in h'
      ensures TermOk(h', el', u)
    {
      if u == t {
        GoodLogExtends(h, h', e.log);
        forall i | 0 <= i < |e.log|
          ensures e.log[i].term < t
        {
          assert EntryOk(h, e.log, i);
        }
      } else {
        assert TermOk(h, el, u);
        GoodLogExtends(h, h', h[u]);
      }
    }
  }

  lemma WinGrows(sys: Sys, sys1: Sys, sys': Sys, s: nat, q: set<nat>)
    requires FreeTerm(sys, s) && WithinHistory(sys.history, sys.acks)
    requires sys1 == Put(sys, s, BecomeLeader(sys.servers[s], s, |sys.servers|))
    requires sys' == RecordAck(RecordElection(sys1, s, q), s, sys.servers[s].term, |sys.servers[s].log|)
    ensures Grows(sys1, sys')
    ensures sys'.acks == sys.acks[Key(s, sys.servers[s].term) := |sys.servers[s].log|]
    ensures sys'.history == sys.history[sys.servers[s].term := sys.servers[s].log]
    ensures sys'.elections == sys.elections[sys.servers[s].term := sys'.elections[sys.servers[s].term]]
    ensures sys'.elections[sys.servers[s].term].log == sys.servers[s].log
            && sys'.elections[sys.servers[s].term].leader == s
    ensures sys'.elections[sys.servers[s].term].voters.Keys == q
  {
  }

  lemma LeaderEvolves(sys: Sys, sys1: Sys, s: nat)
    requires Inv(sys) && s < |sys.servers| && sys.servers[s].role.Candidate?
    requires sys1 == Put(sys, s, BecomeLeader(sys.servers[s], s, |sys.servers|))
    ensures VotesInv(sys1) && ElectionsInv(sys1) && MessagesInv(sys1)
    ensures AcksInv(sys1.history, sys1.elections, sys1.acks, sys1.servers)
  {
    hide VotesInv, ElectionsInv, MessagesInv, AcksInv, ServersInv, HistoryInv, CommitsInv, AppliedInv, Retains;
    var b := BecomeLeader(sys.servers[s], s, |sys.servers|);
    RetainsLater(sys.history, sys.elections, sys.acks, sys.servers, s, b.term + 1);
    EvolveVotes(sys, s, b);
    EvolveElections(sys, s, b);
    EvolveMessages(sys, s, b);
    EvolveAcks(sys, s, b);
  }

  lemma WinServers(sys: Sys, sys1: Sys, sys': Sys, s: nat)
    requires ServersInv(sys) && FreeTerm(sys, s) && Grows(sys1, sys')
    requires sys1 == Put(sys, s, BecomeLeader(sys.servers[s], s, |sys.servers|))
    requires sys'.acks == sys.acks[Key(s, sys.servers[s].term) := |sys.servers[s].log|]
    requires sys'.history == sys.history[sys.servers[s].term := sys.servers[s].log]
    requires sys.servers[s].term in sys'.elections && sys'.elections[sys.servers[s].term].leader == s
    ensures ServersInv(sys')
  {
    forall r | 0 <= r < |sys.servers|
      ensures ServerOk(sys'.history, sys'.elections, sys'.commits, sys'.servers[r], r)
      ensures PeersOk(sys'.acks, |sys'.servers|, sys'.servers[r], r)
    {
      var a := sys.servers[r];
      assert ServerOk(sys.history, sys.elections, sys.commits, a, r) && PeersOk(sys.acks, |sys.servers|, a, r);
      if r == s {
        GoodLogExtends(sys.history, sys'.history, a.log);
        CommittedPrefixExtends(sys.history, sys'.history, sys.commits, sys.commits, a.log[..a.commitIndex], a.term,
          a.term);
        hide GoodLog, CommittedPrefix;
      } else {
        hide ServersInv, FreeTerm;
        assert a.role.Leader? ==> a.term != sys.servers[s].term;
        GrowServer(sys1, sys', r);
      }
    }
  }

  lemma WinElections(sys: Sys, sys1: Sys, sys': Sys, s: nat, q: set<nat>)
    requires Inv(sys) && FreeTerm(sys, s) && WonBy(sys, s, q) && ElectionsInv(sys1)
    requires sys1 == Put(sys, s, BecomeLeader(sys.servers[s], s, |sys.servers|))
    requires sys' == RecordAck(RecordElection(sys1, s, q), s, sys.servers[s].term, |sys.servers[s].log|)
             && Grows(sys1, sys')
    requires sys'.elections == sys.elections[sys.servers[s].term := sys'.elections[sys.servers[s].term]]
    ensures ElectionsInv(sys')
  {
    hide ElectionOk, Grows;
    forall u | u in sys'.elections
      ensures ElectionOk(sys'.history, sys'.elections, sys'.acks, sys'.votes, sys'.servers, u)
    {
      if u == sys.servers[s].term {
        NewElectionOk(sys, sys1, sys', s, q);
      } else {
        GrowElection(sys1, sys', u);
      }
    }
  }

  lemma NewElectionOk(sys: Sys, sys1: Sys, sys': Sys, s: nat, q: set<nat>)
    requires Inv(sys) && FreeTerm(sys, s) && WonBy(sys, s, q)
    requires sys1 == Put(sys, s, BecomeLeader(sys.servers[s], s, |sys.servers|))
    requires sys' == RecordAck(RecordElection(sys1, s, q), s, sys.servers[s].term, |sys.servers[s].log|)
             && Grows(sys1, sys')
    ensures sys.servers[s].term in sys'.elections
    ensures ElectionOk(sys'.history, sys'.elections, sys'.acks, sys'.votes, sys'.servers, sys.servers[s].term)
  {
    hide VotesInv, ElectionsInv, MessagesInv, AcksInv, ServersInv, HistoryInv, CommitsInv, AppliedInv, VoterOk, Grows,
         FreeTerm, Retains, GoodLog;
    var t := sys.servers[s].term;
    ServerFacts(sys, s);
    assert sys'.elections[t].voters.Keys == q;
    forall v | v in q
      ensures VoterOk(sys'.history, sys'.elections, sys'.acks, sys'.votes, sys'.servers, t, v)
    {
      NewVoterOk(sys, sys1, sys', s, q, v);
    }
  }

  lemma WinKeeps(sys: Sys, sys': Sys, s: nat, q: set<nat>)
    requires Inv(sys) && Win(sys, sys', s, q)
    ensures Inv(sys')
  {
    hide VotesInv, ElectionsInv, MessagesInv, AcksInv, ServersInv, HistoryInv, CommitsInv, AppliedInv, Grows, GoodLog,
         CommittedPrefix, Retains, TermsUpTo;
    var sv := sys.servers[s];
    var sys1 := Put(sys, s, BecomeLeader(sv, s, |sys.servers|));
    NewTermIsFree(sys, s, q);
    WinGrows(sys, sys1, sys', s, q);
    LeaderEvolves(sys, sys1, s);
    ServerFacts(sys, s);
    NewHistoryOk(sys.history, sys.elections, sv.term, sys'.elections[sv.term]);
    WinServers(sys, sys1, sys', s);
    WinElections(sys, sys1, sys', s, q);
    WinMessages(sys, sys1, sys', s);
    GrowVotes(sys1, sys');
    assert sv.log[..|sv.log|] == sv.log;
    GrowAcks(sys1, sys', s, |sv.log|);
    GrowCommits(sys1, sys');
    GrowApplied(sys1, sys');
  }

  lemma WinMessages(sys: Sys, sys1: Sys, sys': Sys, s: nat)
    requires VotesInv(sys) && MessagesInv(sys) && MessagesInv(sys1) && FreeTerm(sys, s) && Grows(sys1, sys')
    requires sys1 == Put(sys, s, BecomeLeader(sys.servers[s], s, |sys.servers|))
    requires sys.servers[s].term in sys'.elections && sys'.elections[sys.servers[s].term].leader == s
    requires sys'.elections == sys.elections[sys.servers[s].term := sys'.elections[sys.servers[s].term]]
    ensures MessagesInv(sys')
  {
    LeadersDidNotVote(sys);
    forall m | m in sys.messages && m.ReplyVote? && m.voted.granted && m.vote.term in sys'.elections
      ensures sys'.elections[m.vote.term].leader != m.from
    {
      if m.vote.term == sys.servers[s].term {
        CandidateDidNotVote(sys, s, m);
      }
    }
    hide MessagesInv, VotesInv, Grows;
    GrowMessages(sys1, sys');
  }

  // ------------------------------------------------------------ appending

  lemma RetainsLonger(h: LeaderLogs, el: Elections, acks: Acks, v: nat, log: Log, log': Log, bound: nat)
    requires Retains(h, el, acks, v, log, bound) && log <= log'
    ensures Retains(h, el, acks, v, log', bound)
  {
    forall t: nat, k: nat
      ensures Retained(h, el, acks, v, log', bound, t, k)
    {
      assert Retained(h, el, acks, v, log, bound, t, k);
    }
  }

  lemma LongerHistoryOk(h: LeaderLogs, el: Elections, t: nat, e: Entry)
    requires HistoryInv(h, el) && t in h && e.term == t && e.index == |h[t]| + 1
    ensures HistoryInv(h[t := h[t] + [e]], el) && GoodLog(h[t := h[t] + [e]], h[t] + [e])
  {
    var log' := h[t] + [e];
    var h' := h[t := log'];
    assert TermOk(h, el, t);
    GoodLogExtends(h, h', h[t]);
    forall i | 0 <= i < |log'|
      ensures EntryOk(h', log', i)
    {
      if i < |h[t]| {
        assert EntryOk(h', h[t], i);
        assert log'[..i + 1] == h[t][..i + 1];
      } else {
        assert log'[..i + 1] == log';
      }
    }
    forall u | u in h'
      ensures TermOk(h', el, u)
    {
      assert TermOk(h, el, u);
      if u != t {
        GoodLogExtends(h, h', h[u]);
      }
    }
  }

  /** The state between: the leader has the entry, the histories not yet. */
  ghost predicate Appending(sys: Sys, sys1: Sys, sys': Sys, s: nat, data: Option<Submission>) {
    && s < |sys.servers| && sys.servers[s].role.Leader?
    && var a, b := sys.servers[s], AppendCommand(sys.servers[s], data);
       && a.term in sys.elections && sys.elections[a.term].leader == s
       && a.term in sys.history && a.log == sys.history[a.term]
       && Key(s, a.term) in sys.acks && sys.acks[Key(s, a.term)] == |a.log|
       && sys1 == Put(sys, s, b)
       && sys' == sys1.(history := sys.history[a.term := b.log], acks := sys.acks[Key(s, a.term) := |b.log|])
  }

  lemma AppendBegins(sys: Sys, sys': Sys, s: nat, data: Option<Submission>) returns (sys1: Sys)
    requires Inv(sys) && LeaderAppend(sys, sys', s, data)
    ensures Appending(sys, sys1, sys', s, data)
    ensures VotesInv(sys1) && ElectionsInv(sys1) && MessagesInv(sys1)
    ensures AcksInv(sys1.history, sys1.elections, sys1.acks, sys1.servers)
  {
    hide VotesInv, ElectionsInv, MessagesInv, AcksInv, ServersInv, HistoryInv, CommitsInv, AppliedInv, Retains, GoodLog,
         CommittedPrefix;
    var a, b := sys.servers[s], AppendCommand(sys.servers[s], data);
    sys1 := Put(sys, s, b);
    ServerFacts(sys, s);
    RetainsLonger(sys.history, sys.elections, sys.acks, s, a.log, b.log, a.term + 1);
    EvolveVotes(sys, s, b);
    EvolveElections(sys, s, b);
    EvolveMessages(sys, s, b);
    EvolveAcks(sys, s, b);
  }

  lemma AppendGrows(sys: Sys, sys1: Sys, sys': Sys, s: nat, data: Option<Submission>)
    requires Appending(sys, sys1, sys', s, data) && WithinHistory(sys.history, sys.acks)
    ensures Grows(sys1, sys')
    ensures Holds(sys'.history, sys1.servers[s].log, sys1.servers[s].term, |sys1.servers[s].log|)
    ensures sys'.acks[Key(s, sys1.servers[s].term)] == |sys1.servers[s].log|
  {
    var log := sys1.servers[s].log;
    assert log[..|log|] == log;
  }

  lemma AppendServers(sys: Sys, sys1: Sys, sys': Sys, s: nat, data: Option<Submission>)
    requires ServersInv(sys) && Appending(sys, sys1, sys', s, data) && Grows(sys1, sys')
    requires GoodLog(sys'.history, sys1.servers[s].log)
    ensures ServersInv(sys')
  {
    forall r | 0 <= r < |sys.servers|
      ensures ServerOk(sys'.history, sys'.elections, sys'.commits, sys'.servers[r], r)
      ensures PeersOk(sys'.acks, |sys'.servers|, sys'.servers[r], r)
    {
      var a := sys.servers[r];
      assert ServerOk(sys.history, sys.elections, sys.commits, a, r) && PeersOk(sys.acks, |sys.servers|, a, r);
      if r == s {
        AppendedLeaderOk(sys, sys1, sys', s, data);
      } else {
        GrowServer(sys1, sys', r);
      }
    }
  }

  lemma AppendedLeaderOk(sys: Sys, sys1: Sys, sys': Sys, s: nat, data: Option<Submission>)
    requires Appending(sys, sys1, sys', s, data) && Grows(sys1, sys')
    requires ServerOk(sys.history, sys.elections, sys.commits, sys.servers[s], s)
    requires PeersOk(sys.acks, |sys.servers|, sys.servers[s], s)
    requires GoodLog(sys'.history, sys1.servers[s].log)
    ensures ServerOk(sys'.history, sys'.elections, sys'.commits, sys'.servers[s], s)
    ensures PeersOk(sys'.acks, |sys'.servers|, sys'.servers[s], s)
  {
    var a, b := sys.servers[s], sys1.servers[s];
    CommittedPrefixExtends(sys.history, sys'.history, sys.commits, sys.commits, a.log[..a.commitIndex], a.term, a.term);
    assert b.log[..a.commitIndex] == a.log[..a.commitIndex];
    hide GoodLog, CommittedPrefix;
    forall p | p in b.peers
      ensures PeerOk(sys'.acks, |sys'.servers|, b, s, p)
    {
      assert PeerOk(sys.acks, |sys.servers|, a, s, p);
    }
  }

  lemma AppendElections(sys1: Sys, sys': Sys)
    requires ElectionsInv(sys1) && Grows(sys1, sys') && sys'.elections == sys1.elections
    ensures ElectionsInv(sys')
  {
    hide ElectionOk, Grows;
    forall t | t in sys'.elections
      ensures ElectionOk(sys'.history, sys'.elections, sys'.acks, sys'.votes, sys'.servers, t)
    {
      GrowElection(sys1, sys', t);
    }
  }

  lemma LeaderAppendKeeps(sys: Sys, sys': Sys, s: nat, data: Option<Submission>)
    requires Inv(sys) && LeaderAppend(sys, sys', s, data)
    ensures Inv(sys')
  {
    hide VotesInv, ElectionsInv, MessagesInv, AcksInv, ServersInv, HistoryInv, CommitsInv, AppliedInv, Grows, GoodLog,
         Holds;
    var sys1 := AppendBegins(sys, sys', s, data);
    var a := sys.servers[s];
    AcksWithin(sys.history, sys.elections, sys.acks, sys.servers);
    AppendGrows(sys, sys1, sys', s, data);
    LongerHistoryOk(sys.history, sys.elections, a.term, Entry(|a.log| + 1, a.term, data));
    AppendServers(sys, sys1, sys', s, data);
    AppendElections(sys1, sys');
    LeadersDidNotVote(sys1);
    GrowMessages(sys1, sys');
    GrowVotes(sys1, sys');
    GrowAcks(sys1, sys', s, |sys1.servers[s].log|);
    GrowCommits(sys1, sys');
    GrowApplied(sys1, sys');
  }
}
