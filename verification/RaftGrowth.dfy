/**
 * Steps that add to the histories: an acknowledgement, a won election, a leader's new entry.
 * They only ever add at a server's present term, which is why what was recorded stays true.
 */
module RaftGrowth {
  import opened RaftServer
  import opened RaftSystem
  import opened RaftInvariant
  import opened RaftSafety
  import opened RaftSteps

  /** Acknowledgements change only at the present term of the server that gives them. */
  ghost predicate FreshAcks(sys: Sys, acks': Acks) {
    && (forall k :: k in sys.acks ==> k in acks' && sys.acks[k] <= acks'[k])
    && (forall k :: k in acks' && (k !in sys.acks || sys.acks[k] != acks'[k]) ==>
          k.server < |sys.servers| && k.term == sys.servers[k.server].term)
  }

  ghost predicate Grows(sys: Sys, sys': Sys) {
    && sys' == sys.(history := sys'.history, elections := sys'.elections, acks := sys'.acks)
    && Extends(sys.history, sys'.history)
    && (forall t :: t in sys.elections ==> t in sys'.elections && sys'.elections[t] == sys.elections[t])
    && WithinHistory(sys.history, sys.acks)
    && FreshAcks(sys, sys'.acks)
  }

  lemma GrowRetains(sys: Sys, sys': Sys, v: nat, log: Log, bound: nat)
    requires Grows(sys, sys') && v < |sys.servers| && bound <= sys.servers[v].term
    requires Retains(sys.history, sys.elections, sys.acks, v, log, bound)
    ensures Retains(sys'.history, sys'.elections, sys'.acks, v, log, bound)
  {
    hide Retains;
    RetainsExtends(sys.history, sys'.history, sys.elections, sys'.elections, sys.acks, sys'.acks, v, log, bound);
  }

  lemma GrowVote(sys: Sys, sys': Sys, k: Key, r: Vote)
    requires Grows(sys, sys') && VoteOk(sys.history, sys.elections, sys.acks, sys.servers, k, r)
    ensures VoteOk(sys'.history, sys'.elections, sys'.acks, sys'.servers, k, r)
  {
    hide Retains, GoodLog;
    GoodLogExtends(sys.history, sys'.history, r.log);
    GrowRetains(sys, sys', k.server, r.log, k.term);
  }

  lemma GrowVotes(sys: Sys, sys': Sys)
    requires Grows(sys, sys') && VotesInv(sys)
    ensures VotesInv(sys')
  {
    hide VoteOk;
    forall k | k in sys.votes
      ensures VoteOk(sys'.history, sys'.elections, sys'.acks, sys'.servers, k, sys.votes[k])
    {
      GrowVote(sys, sys', k, sys.votes[k]);
    }
  }

  lemma GrowVoter(sys: Sys, sys': Sys, t: nat, v: nat)
    requires Grows(sys, sys') && t in sys.elections && v in sys.elections[t].voters
    requires VoterOk(sys.history, sys.elections, sys.acks, sys.votes, sys.servers, t, v)
    ensures VoterOk(sys'.history, sys'.elections, sys'.acks, sys'.votes, sys'.servers, t, v)
  {
    hide Retains, GoodLog;
    GoodLogExtends(sys.history, sys'.history, sys.elections[t].voters[v]);
    GrowRetains(sys, sys', v, sys.elections[t].voters[v], t);
  }

  lemma GrowElection(sys: Sys, sys': Sys, t: nat)
    requires Grows(sys, sys') && t in sys.elections
    requires ElectionOk(sys.history, sys.elections, sys.acks, sys.votes, sys.servers, t)
    ensures ElectionOk(sys'.history, sys'.elections, sys'.acks, sys'.votes, sys'.servers, t)
  {
    hide VoterOk;
    forall v | v in sys.elections[t].voters
      ensures VoterOk(sys'.history, sys'.elections, sys'.acks, sys'.votes, sys'.servers, t, v)
    {
      GrowVoter(sys, sys', t, v);
    }
  }

  lemma GrowMessage(sys: Sys, sys': Sys, m: Message)
    requires Grows(sys, sys') && MessageOk(sys, m)
    requires m.ReplyVote? && m.voted.granted && m.vote.term in sys'.elections ==>
             sys'.elections[m.vote.term].leader != m.from
    ensures MessageOk(sys', m)
  {
    if m.AskAppend? {
      var req := m.append;
      SamePrefix(sys.history[req.term], sys'.history[req.term], req.leaderCommit);
      SameSlice(sys.history[req.term], sys'.history[req.term], req.prevIndex, req.prevIndex + |req.entries|);
      CommittedPrefixExtends(sys.history, sys'.history, sys.commits, sys.commits,
                             sys.history[req.term][..req.leaderCommit], req.term, req.term);
    }
  }

  lemma SameSlice(x: Log, y: Log, i: nat, j: nat)
    requires x <= y && i <= j <= |x|
    ensures x[i..j] == y[i..j] && TermAt(x, i) == TermAt(y, i)
  {
  }

  lemma GrowMessages(sys: Sys, sys': Sys)
    requires Grows(sys, sys') && MessagesInv(sys)
    requires forall m :: m in sys.messages && m.ReplyVote? && m.voted.granted && m.vote.term in sys'.elections ==>
               sys'.elections[m.vote.term].leader != m.from
    ensures MessagesInv(sys')
  {
    hide MessageOk, Grows;
    assert sys'.messages == sys.messages by { SameMessages(sys, sys'); }
    forall m | m in sys.messages
      ensures MessageOk(sys', m)
    {
      GrowMessage(sys, sys', m);
    }
  }

  lemma SameMessages(sys: Sys, sys': Sys)
    requires Grows(sys, sys')
    ensures sys'.messages == sys.messages
  {
  }

  lemma GrowCommits(sys: Sys, sys': Sys)
    requires Grows(sys, sys') && CommitsInv(sys.history, sys.acks, |sys.servers|, sys.commits)
    ensures CommitsInv(sys'.history, sys'.acks, |sys'.servers|, sys'.commits)
  {
    forall c | c in sys.commits
      ensures CommitOk(sys'.history, sys'.acks, |sys'.servers|, c)
    {
      assert CommitOk(sys.history, sys.acks, |sys.servers|, c);
      var q :| IsQuorum(q, |sys.servers|) && AllAcked(sys.acks, q, c.term, c.index);
      assert AllAcked(sys'.acks, q, c.term, c.index);
    }
  }

  lemma GrowApplied(sys: Sys, sys': Sys)
    requires Grows(sys, sys') && AppliedInv(sys.history, sys.commits, sys.applied)
    ensures AppliedInv(sys'.history, sys'.commits, sys'.applied)
  {
    forall e | e in sys.applied
      ensures AppliedOk(sys'.history, sys'.commits, e)
    {
      var c := AppliedIsCommitted(sys, e);
      assert sys'.history[c.term][e.index - 1] == e;
    }
  }

  /** A server other than the leader whose log is growing. */
  lemma GrowServer(sys: Sys, sys': Sys, s: nat)
    requires Grows(sys, sys') && s < |sys.servers|
    requires ServerOk(sys.history, sys.elections, sys.commits, sys.servers[s], s)
    requires PeersOk(sys.acks, |sys.servers|, sys.servers[s], s)
    requires sys.servers[s].role.Leader? ==>
               && sys'.history[sys.servers[s].term] == sys.history[sys.servers[s].term]
               && sys'.acks[Key(s, sys.servers[s].term)] == sys.acks[Key(s, sys.servers[s].term)]
    ensures ServerOk(sys'.history, sys'.elections, sys'.commits, sys'.servers[s], s)
    ensures PeersOk(sys'.acks, |sys'.servers|, sys'.servers[s], s)
  {
    var sv := sys.servers[s];
    hide GoodLog, CommittedPrefix;
    GoodLogExtends(sys.history, sys'.history, sv.log);
    CommittedPrefixExtends(sys.history, sys'.history, sys.commits, sys.commits, sv.log[..sv.commitIndex], sv.term,
      sv.term);
    forall p | sv.role.Leader? && p in sv.peers
      ensures PeerOk(sys'.acks, |sys'.servers|, sv, s, p)
    {
      assert PeerOk(sys.acks, |sys.servers|, sv, s, p);
    }
  }

  // ------------------------------------------------------------ what is retained

  /** The new acknowledgement at the top is of what the log holds. */
  lemma RetainsTop(sys: Sys, sys': Sys, s: nat, m: nat)
    requires Grows(sys, sys') && s < |sys.servers|
    requires Retains(sys.history, sys.elections, sys.acks, s, sys.servers[s].log, sys.servers[s].term + 1)
    requires Key(s, sys.servers[s].term) in sys'.acks && m <= sys'.acks[Key(s, sys.servers[s].term)]
    requires sys'.acks[Key(s, sys.servers[s].term)] == m || sys'.acks == sys.acks
    requires Holds(sys'.history, sys.servers[s].log, sys.servers[s].term, m)
    ensures Retains(sys'.history, sys'.elections, sys'.acks, s, sys.servers[s].log, sys.servers[s].term + 1)
  {
    var log, top, bound := sys.servers[s].log, sys.servers[s].term, sys.servers[s].term + 1;
    hide Retains;
    if sys'.acks == sys.acks {
      RetainsExtends(sys.history, sys'.history, sys.elections, sys'.elections, sys.acks, sys'.acks, s, log, bound);
    } else {
      var below, below' := sys.acks - {Key(s, top)}, sys'.acks - {Key(s, top)};
      RetainsFewer(sys.history, sys.elections, sys.acks, below, s, log, bound);
      RetainsExtends(sys.history, sys'.history, sys.elections, sys'.elections, below, below', s, log, bound);
      RetainsOneMore(sys'.history, sys'.elections, sys'.acks, s, log, top, m);
    }
  }

  lemma RetainsOneMore(h: LeaderLogs, el: Elections, acks: Acks, s: nat, log: Log, top: nat, m: nat)
    requires Retains(h, el, acks - {Key(s, top)}, s, log, top + 1)
    requires Key(s, top) in acks ==> acks[Key(s, top)] == m
    requires Holds(h, log, top, m)
    ensures Retains(h, el, acks, s, log, top + 1)
  {
    var bound := top + 1;
    forall t: nat, k: nat
      ensures Retained(h, el, acks, s, log, bound, t, k)
    {
      assert Retained(h, el, acks - {Key(s, top)}, s, log, bound, t, k);
      if t == top && k <= m {
        HoldsLess(h, log, top, m, k);
      }
    }
  }

  lemma HoldsLess(h: LeaderLogs, log: Log, t: nat, m: nat, k: nat)
    requires Holds(h, log, t, m) && k <= m
    ensures Holds(h, log, t, k)
  {
    assert h[t][..k] == h[t][..m][..k];
  }

  lemma RetainsFewer(h: LeaderLogs, el: Elections, acks: Acks, fewer: Acks, v: nat, log: Log, bound: nat)
    requires Retains(h, el, acks, v, log, bound)
    requires forall k :: k in fewer ==> k in acks && acks[k] == fewer[k]
    ensures Retains(h, el, fewer, v, log, bound)
  {
    forall t: nat, k: nat
      ensures Retained(h, el, fewer, v, log, bound, t, k)
    {
      assert Retained(h, el, acks, v, log, bound, t, k);
    }
  }

  lemma GrowAcks(sys: Sys, sys': Sys, s: nat, m: nat)
    requires Grows(sys, sys') && AcksInv(sys.history, sys.elections, sys.acks, sys.servers) && s < |sys.servers|
    requires forall k :: k in sys'.acks && k != Key(s, sys.servers[s].term) ==>
             k in sys.acks && sys'.acks[k] == sys.acks[k]
    requires Key(s, sys.servers[s].term) in sys'.acks && m <= sys'.acks[Key(s, sys.servers[s].term)]
    requires sys'.acks[Key(s, sys.servers[s].term)] == m || sys'.acks == sys.acks
    requires Holds(sys'.history, sys.servers[s].log, sys.servers[s].term, m)
    ensures AcksInv(sys'.history, sys'.elections, sys'.acks, sys'.servers)
  {
    hide Retains;
    forall k | k in sys'.acks
      ensures AckOk(sys'.history, sys'.acks, sys'.servers, k)
    {
      if k in sys.acks {
        assert AckOk(sys.history, sys.acks, sys.servers, k);
      }
    }
    forall v | 0 <= v < |sys.servers|
      ensures Retains(sys'.history, sys'.elections, sys'.acks, v, sys.servers[v].log, sys.servers[v].term + 1)
    {
      assert Retains(sys.history, sys.elections, sys.acks, v, sys.servers[v].log, sys.servers[v].term + 1);
      if v == s {
        RetainsTop(sys, sys', s, m);
      } else {
        RetainsExtends(sys.history, sys'.history, sys.elections, sys'.elections, sys.acks, sys'.acks,
                       v, sys.servers[v].log, sys.servers[v].term + 1);
      }
    }
  }

  // ------------------------------------------------------------ a follower acknowledges

  lemma RecordAckGrows(sys: Sys, s: nat, m: nat)
    requires AcksInv(sys.history, sys.elections, sys.acks, sys.servers) && s < |sys.servers|
    ensures Grows(sys, RecordAck(sys, s, sys.servers[s].term, m))
  {
    AcksWithin(sys.history, sys.elections, sys.acks, sys.servers);
  }

  lemma RecordAckKeeps(sys: Sys, s: nat, m: nat)
    requires Inv(sys) && s < |sys.servers| && !sys.servers[s].role.Leader?
    requires Holds(sys.history, sys.servers[s].log, sys.servers[s].term, m)
    ensures Inv(RecordAck(sys, s, sys.servers[s].term, m))
  {
    hide VotesInv, ElectionsInv, MessagesInv, AcksInv, ServersInv, HistoryInv, CommitsInv, AppliedInv, Grows, Holds;
    var sys' := RecordAck(sys, s, sys.servers[s].term, m);
    RecordAckGrows(sys, s, m);
    GrowAcks(sys, sys', s, if sys'.acks == sys.acks then m else sys'.acks[Key(s, sys.servers[s].term)]);
    RecordAckServers(sys, s, m);
    RecordAckElections(sys, s, m);
    GrowVotes(sys, sys');
    LeadersDidNotVote(sys);
    GrowMessages(sys, sys');
    GrowCommits(sys, sys');
    GrowApplied(sys, sys');
  }

  lemma LeadersDidNotVote(sys: Sys)
    requires MessagesInv(sys)
    ensures forall m :: m in sys.messages && m.ReplyVote? && m.voted.granted && m.vote.term in sys.elections ==>
              sys.elections[m.vote.term].leader != m.from
  {
    forall m | m in sys.messages && m.ReplyVote? && m.voted.granted && m.vote.term in sys.elections
      ensures sys.elections[m.vote.term].leader != m.from
    {
      assert MessageOk(sys, m);
    }
  }

  lemma RecordAckServers(sys: Sys, s: nat, m: nat)
    requires ServersInv(sys) && AcksInv(sys.history, sys.elections, sys.acks, sys.servers)
    requires s < |sys.servers| && !sys.servers[s].role.Leader?
    ensures ServersInv(RecordAck(sys, s, sys.servers[s].term, m))
  {
    var sys' := RecordAck(sys, s, sys.servers[s].term, m);
    RecordAckGrows(sys, s, m);
    forall r | 0 <= r < |sys.servers|
      ensures ServerOk(sys'.history, sys'.elections, sys'.commits, sys'.servers[r], r)
      ensures PeersOk(sys'.acks, |sys'.servers|, sys'.servers[r], r)
    {
      assert ServerOk(sys.history, sys.elections, sys.commits, sys.servers[r], r);
      assert PeersOk(sys.acks, |sys.servers|, sys.servers[r], r);
      hide Grows, ServersInv;
      GrowServer(sys, sys', r);
    }
  }

  lemma RecordAckElections(sys: Sys, s: nat, m: nat)
    requires ElectionsInv(sys) && AcksInv(sys.history, sys.elections, sys.acks, sys.servers) && s < |sys.servers|
    ensures ElectionsInv(RecordAck(sys, s, sys.servers[s].term, m))
  {
    var sys' := RecordAck(sys, s, sys.servers[s].term, m);
    RecordAckGrows(sys, s, m);
    hide ElectionOk, Grows;
    forall t | t in sys.elections
      ensures ElectionOk(sys'.history, sys'.elections, sys'.acks, sys'.votes, sys'.servers, t)
    {
      GrowElection(sys, sys', t);
    }
  }
}
