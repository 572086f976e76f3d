/**
 * The elementary changes every step of the cluster is made of, and that each keeps the
 * invariant: one server moves, messages are sent, a vote, an acknowledgement or a commit is
 * recorded, an election is won, a leader appends, a follower takes over a leader's entries.
 */
module RaftSteps {
  import opened Options
  import opened RaftServer
  import opened RaftSystem
  import opened RaftInvariant
  import opened RaftSafety

  // ------------------------------------------------------------ growing histories

  ghost predicate Extends(h: LeaderLogs, h': LeaderLogs) {
    forall t :: t in h ==> t in h' && h[t] <= h'[t]
  }

  lemma GoodLogExtends(h: LeaderLogs, h': LeaderLogs, log: Log)
    requires Extends(h, h') && GoodLog(h, log)
    ensures GoodLog(h', log)
  {
    forall i | 0 <= i < |log|
      ensures EntryOk(h', log, i)
    {
      assert EntryOk(h, log, i);
    }
  }

  lemma CommittedPrefixExtends(h: LeaderLogs, h': LeaderLogs, c: set<Commit>, c': set<Commit>, p: Log, t: nat, t': nat)
    requires Extends(h, h') && c <= c' && t <= t' && CommittedPrefix(h, c, p, t)
    ensures CommittedPrefix(h', c', p, t')
  {
    if p != [] {
      var w :| w in c && w.term <= t && CoveredBy(h, p, w);
      assert CoveredBy(h', p, w) by { SamePrefix(h[w.term], h'[w.term], w.index); }
    }
  }

  lemma SamePrefix(x: Log, y: Log, k: nat)
    requires x <= y && k <= |x|
    ensures x[..k] == y[..k]
  {
  }

  lemma HoldsExtends(h: LeaderLogs, h': LeaderLogs, log: Log, t: nat, k: nat)
    requires Extends(h, h') && t in h && k <= |h[t]|
    ensures Holds(h, log, t, k) <==> Holds(h', log, t, k)
  {
    SamePrefix(h[t], h'[t], k);
  }

  /** Acknowledgements of one server below a term are fixed once and for all. */
  ghost predicate SameBelow(acks: Acks, acks': Acks, v: nat, bound: nat) {
    forall t: nat :: t < bound && Key(v, t) in acks' ==> Key(v, t) in acks && acks'[Key(v, t)] == acks[Key(v, t)]
  }

  ghost predicate WithinHistory(h: LeaderLogs, acks: Acks) {
    forall k :: k in acks ==> k.term in h && acks[k] <= |h[k.term]|
  }

  lemma RetainsExtends(h: LeaderLogs, h': LeaderLogs, el: Elections, el': Elections, acks: Acks, acks': Acks, v: nat,
      log: Log, bound: nat)
    requires Extends(h, h') && WithinHistory(h, acks) && SameBelow(acks, acks', v, bound)
    requires forall u :: u in el ==> u in el' && el'[u] == el[u]
    requires Retains(h, el, acks, v, log, bound)
    ensures Retains(h', el', acks', v, log, bound)
  {
    forall t: nat, k: nat
      ensures Retained(h', el', acks', v, log, bound, t, k)
    {
      if Key(v, t) in acks' && t < bound && k <= acks'[Key(v, t)] {
        assert Retained(h, el, acks, v, log, bound, t, k);
        HoldsExtends(h, h', log, t, k);
        if Lost(h, el, t, k, bound) {
          var u :| u in el && t < u < bound && !Holds(h, el[u].log, t, k);
          HoldsExtends(h, h', el[u].log, t, k);
          assert u in el' && t < u < bound && !Holds(h', el'[u].log, t, k);
        }
      }
    }
  }

  lemma AcksWithin(h: LeaderLogs, el: Elections, acks: Acks, servers: seq<Server>)
    requires AcksInv(h, el, acks, servers)
    ensures WithinHistory(h, acks)
  {
    forall k | k in acks
      ensures k.term in h && acks[k] <= |h[k.term]|
    {
      assert AckOk(h, acks, servers, k);
    }
  }

  /** What the invariant says of one server. */
  lemma ServerFacts(sys: Sys, s: nat)
    requires ServersInv(sys) && AcksInv(sys.history, sys.elections, sys.acks, sys.servers) && s < |sys.servers|
    ensures ServerOk(sys.history, sys.elections, sys.commits, sys.servers[s], s)
    ensures PeersOk(sys.acks, |sys.servers|, sys.servers[s], s)
    ensures Retains(sys.history, sys.elections, sys.acks, s, sys.servers[s].log, sys.servers[s].term + 1)
  {
    hide ServerOk, PeersOk, Retains;
  }

  // ------------------------------------------------------------ one server moves

  /** What every change of a server keeps: terms grow, and within a term votes are not taken back. */
  ghost predicate Evolves(a: Server, b: Server, s: nat) {
    && a.term <= b.term
    && (a.term == b.term ==>
          && (a.role.Follower? && a.votedFor.Some? ==> b.role.Follower? && b.votedFor == a.votedFor)
          && (!a.role.Candidate? && a.votedFor == Some(s) ==> !b.role.Candidate? && b.votedFor == Some(s))
          && (b.role.Candidate? ==> a.role.Candidate? && b.log == a.log))
  }

  lemma EvolveVotes(sys: Sys, s: nat, b: Server)
    requires VotesInv(sys) && s < |sys.servers| && Evolves(sys.servers[s], b, s)
    ensures VotesInv(Put(sys, s, b))
  {
    var sys' := Put(sys, s, b);
    forall k | k in sys.votes
      ensures VoteOk(sys.history, sys.elections, sys.acks, sys'.servers, k, sys.votes[k])
    {
      assert VoteOk(sys.history, sys.elections, sys.acks, sys.servers, k, sys.votes[k]);
      hide GoodLog, Retains;
    }
  }

  lemma EvolveVoter(sys: Sys, s: nat, b: Server, t: nat, v: nat)
    requires s < |sys.servers| && Evolves(sys.servers[s], b, s) && t in sys.elections && v in sys.elections[t].voters
    requires VoterOk(sys.history, sys.elections, sys.acks, sys.votes, sys.servers, t, v)
    ensures VoterOk(sys.history, sys.elections, sys.acks, sys.votes, Put(sys, s, b).servers, t, v)
  {
    hide GoodLog, Retains;
  }

  lemma EvolveElection(sys: Sys, s: nat, b: Server, t: nat)
    requires s < |sys.servers| && Evolves(sys.servers[s], b, s) && t in sys.elections
    requires ElectionOk(sys.history, sys.elections, sys.acks, sys.votes, sys.servers, t)
    ensures ElectionOk(sys.history, sys.elections, sys.acks, sys.votes, Put(sys, s, b).servers, t)
  {
    hide VoterOk;
    forall v | v in sys.elections[t].voters
      ensures VoterOk(sys.history, sys.elections, sys.acks, sys.votes, Put(sys, s, b).servers, t, v)
    {
      EvolveVoter(sys, s, b, t, v);
    }
  }

  lemma EvolveElections(sys: Sys, s: nat, b: Server)
    requires ElectionsInv(sys) && s < |sys.servers| && Evolves(sys.servers[s], b, s)
    ensures ElectionsInv(Put(sys, s, b))
  {
    hide ElectionOk, Evolves;
    forall t | t in sys.elections
      ensures ElectionOk(sys.history, sys.elections, sys.acks, sys.votes, Put(sys, s, b).servers, t)
    {
      EvolveElection(sys, s, b, t);
    }
  }

  lemma EvolveMessages(sys: Sys, s: nat, b: Server)
    requires MessagesInv(sys) && s < |sys.servers| && Evolves(sys.servers[s], b, s)
    ensures MessagesInv(Put(sys, s, b))
  {
    var sys' := Put(sys, s, b);
    forall m | m in sys.messages
      ensures MessageOk(sys', m)
    {
      assert MessageOk(sys, m);
      hide AskAppendOk, ReplyAppendOk, ReplyVoteOk;
    }
  }

  /** With an unchanged log a higher term only widens the excuses. */
  lemma RetainsLater(h: LeaderLogs, el: Elections, acks: Acks, servers: seq<Server>, v: nat, bound: nat)
    requires AcksInv(h, el, acks, servers) && v < |servers| && servers[v].term < bound
    ensures Retains(h, el, acks, v, servers[v].log, bound)
  {
    var log := servers[v].log;
    forall t: nat, k: nat
      ensures Retained(h, el, acks, v, log, bound, t, k)
    {
      if Key(v, t) in acks && k <= acks[Key(v, t)] {
        assert AckOk(h, acks, servers, Key(v, t));
        assert Retained(h, el, acks, v, log, servers[v].term + 1, t, k);
        if Lost(h, el, t, k, servers[v].term + 1) {
          var u :| u in el && t < u < servers[v].term + 1 && !Holds(h, el[u].log, t, k);
          assert u in el && t < u < bound && !Holds(h, el[u].log, t, k);
        }
      }
    }
  }

  lemma EvolveAcks(sys: Sys, s: nat, b: Server)
    requires AcksInv(sys.history, sys.elections, sys.acks, sys.servers)
    requires s < |sys.servers| && sys.servers[s].term <= b.term
    requires Retains(sys.history, sys.elections, sys.acks, s, b.log, b.term + 1)
    ensures AcksInv(sys.history, sys.elections, sys.acks, Put(sys, s, b).servers)
  {
    var servers' := Put(sys, s, b).servers;
    hide Retains;
    forall k | k in sys.acks
      ensures AckOk(sys.history, sys.acks, servers', k)
    {
      assert AckOk(sys.history, sys.acks, sys.servers, k);
    }
  }

  ghost predicate Fits(sys: Sys, s: nat, b: Server) {
    && ServerOk(sys.history, sys.elections, sys.commits, b, s)
    && PeersOk(sys.acks, |sys.servers|, b, s)
  }

  lemma MoveServers(sys: Sys, s: nat, b: Server)
    requires ServersInv(sys) && s < |sys.servers| && Fits(sys, s, b)
    ensures ServersInv(Put(sys, s, b))
  {
    hide ServerOk, PeersOk;
  }

  /** A server may move to any fitting state that evolves from its present one. */
  lemma MoveKeeps(sys: Sys, s: nat, b: Server)
    requires Inv(sys) && s < |sys.servers| && Evolves(sys.servers[s], b, s) && Fits(sys, s, b)
    requires Retains(sys.history, sys.elections, sys.acks, s, b.log, b.term + 1)
    ensures Inv(Put(sys, s, b))
  {
    EvolveVotes(sys, s, b);
    EvolveElections(sys, s, b);
    EvolveMessages(sys, s, b);
    EvolveAcks(sys, s, b);
    MoveServers(sys, s, b);
    hide VotesInv, ElectionsInv, MessagesInv, AcksInv, ServersInv, HistoryInv, CommitsInv, AppliedInv, Retains, Fits,
         Evolves;
  }

  /** The common case: the log stays. */
  lemma MoveSameLog(sys: Sys, s: nat, b: Server)
    requires Inv(sys) && s < |sys.servers| && Evolves(sys.servers[s], b, s) && b.log == sys.servers[s].log
    requires RoleOk(sys.history, sys.elections, b, s) && PeersOk(sys.acks, |sys.servers|, b, s)
    requires b.lastApplied <= b.commitIndex <= sys.servers[s].commitIndex
    ensures Inv(Put(sys, s, b))
  {
    var a := sys.servers[s];
    RetainsLater(sys.history, sys.elections, sys.acks, sys.servers, s, b.term + 1);
    assert ServerOk(sys.history, sys.elections, sys.commits, a, s);
    SmallerCommit(sys.history, sys.commits, a.log, a.commitIndex, b.commitIndex, a.term, b.term);
    hide HistoryInv, ServersInv, AcksInv, VotesInv, ElectionsInv, MessagesInv, CommitsInv, AppliedInv, Retains, GoodLog,
         CommittedPrefix;
    MoveKeeps(sys, s, b);
  }

  lemma SmallerCommit(h: LeaderLogs, commits: set<Commit>, log: Log, i: nat, j: nat, t: nat, t': nat)
    requires j <= i <= |log| && t <= t' && CommittedPrefix(h, commits, log[..i], t)
    ensures CommittedPrefix(h, commits, log[..j], t')
  {
    if log[..j] != [] {
      var c :| c in commits && c.term <= t && CoveredBy(h, log[..i], c);
      assert log[..j] <= log[..i];
      assert CoveredBy(h, log[..j], c);
    }
  }

  // ------------------------------------------------------------ messages

  lemma SendKeeps(sys: Sys, ms: set<Message>)
    requires Inv(sys) && forall m :: m in ms ==> MessageOk(sys, m)
    ensures Inv(Send(sys, ms))
  {
    var sys' := Send(sys, ms);
    forall m | m in sys'.messages
      ensures MessageOk(sys', m)
    {
      assert MessageOk(sys, m);
      hide AskAppendOk, ReplyAppendOk, ReplyVoteOk, AskVoteOk;
    }
    hide VotesInv, ElectionsInv, AcksInv, ServersInv, HistoryInv, CommitsInv, AppliedInv, MessageOk;
    SendRest(sys, ms);
  }

  lemma SendRest(sys: Sys, ms: set<Message>)
    requires VotesInv(sys) && ElectionsInv(sys) && ServersInv(sys)
    ensures VotesInv(Send(sys, ms)) && ElectionsInv(Send(sys, ms)) && ServersInv(Send(sys, ms))
  {
    hide VoteOk, ElectionOk, ServerOk, PeersOk;
  }

  // ------------------------------------------------------------ votes

  /** The vote a follower has just cast is one that may be recorded. */
  lemma NewVoteOk(sys: Sys, v: nat, req: VoteReq)
    requires ServersInv(sys) && AcksInv(sys.history, sys.elections, sys.acks, sys.servers)
    requires v < |sys.servers| && req.candidate < |sys.servers| && v != req.candidate
    requires req.term == sys.servers[v].term && req.term !in sys.elections
    requires sys.servers[v].votedFor == Some(req.candidate) && sys.servers[v].role.Follower?
    requires ReqFresh(sys.servers[req.candidate], req)
    requires UpToDate(req.lastTerm, req.lastIndex, LastTerm(sys.servers[v].log), |sys.servers[v].log|)
    ensures VoteOk(sys.history, sys.elections, sys.acks, sys.servers, Key(v, req.term),
            Vote(req.candidate, req, sys.servers[v].log))
  {
    var h, el, acks, sv := sys.history, sys.elections, sys.acks, sys.servers[v];
    assert ServerOk(h, el, sys.commits, sv, v);
    assert Retains(h, el, acks, v, sv.log, sv.term + 1);
    hide ServersInv, AcksInv, Retains, GoodLog;
    RetainsAtVote(h, el, acks, v, sv.log, req.term);
  }

  /** While a term has no leader, only earlier leaders can have lost anything. */
  lemma RetainsAtVote(h: LeaderLogs, el: Elections, acks: Acks, v: nat, log: Log, t: nat)
    requires t !in el && Retains(h, el, acks, v, log, t + 1)
    ensures Retains(h, el, acks, v, log, t)
  {
    forall t0: nat, k: nat
      ensures Retained(h, el, acks, v, log, t, t0, k)
    {
      assert Retained(h, el, acks, v, log, t + 1, t0, k);
      if Lost(h, el, t0, k, t + 1) {
        var u :| u in el && t0 < u < t + 1 && !Holds(h, el[u].log, t0, k);
        assert u in el && t0 < u < t && !Holds(h, el[u].log, t0, k);
      }
    }
  }

  lemma RecordVoteElection(sys: Sys, votes': map<Key, Vote>, t: nat)
    requires t in sys.elections && forall k :: k in sys.votes ==> k in votes' && votes'[k] == sys.votes[k]
    requires ElectionOk(sys.history, sys.elections, sys.acks, sys.votes, sys.servers, t)
    ensures ElectionOk(sys.history, sys.elections, sys.acks, votes', sys.servers, t)
  {
    hide GoodLog, Retains;
    forall v | v in sys.elections[t].voters
      ensures VoterOk(sys.history, sys.elections, sys.acks, votes', sys.servers, t, v)
    {
      assert VoterOk(sys.history, sys.elections, sys.acks, sys.votes, sys.servers, t, v);
    }
  }

  lemma RecordVoteElections(sys: Sys, sys': Sys, k: Key, r: Vote)
    requires ElectionsInv(sys) && k !in sys.votes && sys' == sys.(votes := sys.votes[k := r])
    ensures ElectionsInv(sys')
  {
    hide ElectionOk;
    forall t | t in sys.elections
      ensures ElectionOk(sys.history, sys.elections, sys.acks, sys'.votes, sys.servers, t)
    {
      RecordVoteElection(sys, sys'.votes, t);
    }
  }

  lemma RecordVoteMessages(sys: Sys, sys': Sys, k: Key, r: Vote)
    requires MessagesInv(sys) && ServersInv(sys)
    requires k !in sys.votes && k.term !in sys.elections && sys' == sys.(votes := sys.votes[k := r])
    ensures MessagesInv(sys') && ServersInv(sys')
  {
    hide AskAppendOk, ReplyAppendOk, AskVoteOk, ServerOk, PeersOk;
    forall m | m in sys.messages
      ensures MessageOk(sys', m)
    {
      assert MessageOk(sys, m);
    }
  }

  lemma RecordVoteKeeps(sys: Sys, v: nat, req: VoteReq)
    requires Inv(sys) && v < |sys.servers| && req.candidate < |sys.servers| && v != req.candidate
    requires req.term == sys.servers[v].term
    requires sys.servers[v].votedFor == Some(req.candidate) && sys.servers[v].role.Follower?
    requires ReqFresh(sys.servers[req.candidate], req)
    requires UpToDate(req.lastTerm, req.lastIndex, LastTerm(sys.servers[v].log), |sys.servers[v].log|)
    ensures Inv(RecordVote(sys, v, req))
  {
    if req.term !in sys.elections && Key(v, req.term) !in sys.votes {
      NewVoteOk(sys, v, req);
      var k, r := Key(v, req.term), Vote(req.candidate, req, sys.servers[v].log);
      RecordVoteElections(sys, RecordVote(sys, v, req), k, r);
      RecordVoteMessages(sys, RecordVote(sys, v, req), k, r);
      hide ElectionsInv, MessagesInv, AcksInv, ServersInv, HistoryInv, CommitsInv, AppliedInv, VoteOk;
    }
  }

  // ------------------------------------------------------------ commits and applied entries

  lemma RecordCommitServers(sys: Sys, c: Commit)
    requires ServersInv(sys)
    ensures ServersInv(sys.(commits := sys.commits + {c}))
  {
    forall s | 0 <= s < |sys.servers|
      ensures ServerOk(sys.history, sys.elections, sys.commits + {c}, sys.servers[s], s)
    {
      var sv := sys.servers[s];
      assert ServerOk(sys.history, sys.elections, sys.commits, sv, s);
      CommittedPrefixExtends(sys.history, sys.history, sys.commits, sys.commits + {c}, sv.log[..sv.commitIndex],
        sv.term, sv.term);
    }
  }

  lemma RecordCommitMessages(sys: Sys, c: Commit)
    requires MessagesInv(sys)
    ensures MessagesInv(sys.(commits := sys.commits + {c}))
  {
    forall m | m in sys.messages
      ensures MessageOk(sys.(commits := sys.commits + {c}), m)
    {
      assert MessageOk(sys, m);
      if m.AskAppend? {
        var req := m.append;
        CommittedPrefixExtends(sys.history, sys.history, sys.commits, sys.commits + {c},
                               sys.history[req.term][..req.leaderCommit], req.term, req.term);
      }
    }
  }

  lemma RecordCommitKeeps(sys: Sys, c: Commit)
    requires Inv(sys) && CommitOk(sys.history, sys.acks, |sys.servers|, c)
    ensures Inv(sys.(commits := sys.commits + {c}))
  {
    var sys' := sys.(commits := sys.commits + {c});
    RecordCommitServers(sys, c);
    RecordCommitMessages(sys, c);
    RecordCommitApplied(sys, c);
    CommitRest(sys, c);
    hide ElectionsInv, MessagesInv, AcksInv, ServersInv, HistoryInv, VotesInv, AppliedInv, CommitOk;
  }

  lemma RecordCommitApplied(sys: Sys, c: Commit)
    requires AppliedInv(sys.history, sys.commits, sys.applied)
    ensures AppliedInv(sys.history, sys.commits + {c}, sys.applied)
  {
    forall e | e in sys.applied
      ensures AppliedOk(sys.history, sys.commits + {c}, e)
    {
      var d := AppliedIsCommitted(sys, e);
      assert d in sys.commits + {c};
    }
  }

  lemma CommitRest(sys: Sys, c: Commit)
    requires VotesInv(sys) && ElectionsInv(sys)
    ensures VotesInv(sys.(commits := sys.commits + {c})) && ElectionsInv(sys.(commits := sys.commits + {c}))
  {
    hide VoteOk, ElectionOk;
  }

  lemma RecordAppliedKeeps(sys: Sys, e: Entry)
    requires Inv(sys) && AppliedOk(sys.history, sys.commits, e)
    ensures Inv(sys.(applied := sys.applied + {e}))
  {
    AppliedRest(sys, e);
    hide ElectionsInv, MessagesInv, AcksInv, ServersInv, HistoryInv, VotesInv, CommitsInv, AppliedOk;
  }

  lemma AppliedRest(sys: Sys, e: Entry)
    requires VotesInv(sys) && ElectionsInv(sys) && MessagesInv(sys) && ServersInv(sys)
    ensures var sys' := sys.(applied := sys.applied + {e});
            VotesInv(sys') && ElectionsInv(sys') && MessagesInv(sys') && ServersInv(sys')
  {
    hide VoteOk, ElectionOk, ServerOk, PeersOk, AskAppendOk, ReplyAppendOk, ReplyVoteOk, AskVoteOk;
    forall m | m in sys.messages
      ensures MessageOk(sys.(applied := sys.applied + {e}), m)
    {
      assert MessageOk(sys, m);
    }
  }
}
