/** What the invariant implies: one leader per term, complete leaders, one sequence of applied entries. */
module RaftSafety {
  import opened RaftServer
  import opened RaftSystem
  import opened RaftInvariant

  lemma QuorumsMeet(q: set<nat>, r: set<nat>, size: nat) returns (v: nat)
    requires IsQuorum(q, size) && IsQuorum(r, size)
    ensures v in q && v in r
  {
    if q * r == {} {
      assert |q + r| == |q| + |r| - |q * r|;
      SubsetSize(q + r, Ids(size));
      assert false;
    }
    v :| v in q * r;
  }

  lemma {:induction false} SubsetSize(x: set<nat>, y: set<nat>)
    requires x <= y
    ensures |x| <= |y|
  {
    assert y == x + (y - x);
  }

  /** What the winner's side of an election says about one supporter. */
  lemma SupporterFacts(sys: Sys, t: nat, v: nat)
    requires VotesInv(sys) && ElectionsInv(sys) && t in sys.elections && v in sys.elections[t].voters
    ensures var leader := sys.elections[t].leader;
            && v < |sys.servers|
            && if v == leader then WinnerStands(sys.servers[v], v, t)
               else Key(v, t) in sys.votes && sys.votes[Key(v, t)].candidate == leader
                    && VoteStands(sys.servers[v], leader, t)
  {
    assert ElectionOk(sys.history, sys.elections, sys.acks, sys.votes, sys.servers, t);
    assert VoterOk(sys.history, sys.elections, sys.acks, sys.votes, sys.servers, t, v);
    if v != sys.elections[t].leader {
      assert VoteOk(sys.history, sys.elections, sys.acks, sys.servers, Key(v, t), sys.votes[Key(v, t)]);
    }
  }

  /** What a counted reply says about the server that sent it. */
  lemma GrantedFacts(sys: Sys, s: nat, q: set<nat>, v: nat)
    requires MessagesInv(sys) && WonBy(sys, s, q) && v in q && v != s
    ensures var t := sys.servers[s].term;
            && (Key(v, t) in sys.votes ==> sys.votes[Key(v, t)].candidate == s)
            && (t !in sys.elections ==> Key(v, t) in sys.votes)
            && (t in sys.elections ==> sys.elections[t].leader != v)
  {
    var m :| m in sys.messages && GrantedBy(m, v, s, sys.servers[s].term);
    assert MessageOk(sys, m);
  }

  /** Election Safety: a candidate can only win a term nobody has won. */
  lemma ElectionSafety(sys: Sys, s: nat, q: set<nat>)
    requires VotesInv(sys) && ElectionsInv(sys) && MessagesInv(sys) && WonBy(sys, s, q)
    ensures sys.servers[s].term !in sys.elections
  {
    var t := sys.servers[s].term;
    if t in sys.elections {
      assert ElectionOk(sys.history, sys.elections, sys.acks, sys.votes, sys.servers, t);
      var v := QuorumsMeet(q, sys.elections[t].voters.Keys, |sys.servers|);
      hide ElectionsInv, MessagesInv, VotesInv;
      if v != s {
        GrantedFacts(sys, s, q, v);
      }
      SupporterFacts(sys, t, v);
      assert false;
    }
  }

  // ------------------------------------------------------------ Leader Completeness

  ghost predicate Majority(acks: Acks, size: nat, t: nat, k: nat) {
    exists q :: IsQuorum(q, size) && AllAcked(acks, q, t, k)
  }

  /** The voter that also acknowledged had the entries, unless an earlier leader lacked them. */
  lemma VoterHas(sys: Sys, t: nat, k: nat, u: nat) returns (v: nat)
    requires ElectionsInv(sys) && Majority(sys.acks, |sys.servers|, t, k)
    requires u in sys.elections && t < u
    requires forall w :: w in sys.elections && t < w < u ==> Holds(sys.history, sys.elections[w].log, t, k)
    ensures v in sys.elections[u].voters && Holds(sys.history, sys.elections[u].voters[v], t, k)
    ensures VoterOk(sys.history, sys.elections, sys.acks, sys.votes, sys.servers, u, v)
  {
    var h, el := sys.history, sys.elections;
    var q :| IsQuorum(q, |sys.servers|) && AllAcked(sys.acks, q, t, k);
    assert ElectionOk(h, el, sys.acks, sys.votes, sys.servers, u);
    v := QuorumsMeet(q, el[u].voters.Keys, |sys.servers|);
    assert VoterOk(h, el, sys.acks, sys.votes, sys.servers, u, v);
    assert Retained(h, el, sys.acks, v, el[u].voters[v], u, t, k);
  }

  /** The up-to-date check passes the entries on from the voter to the winner. */
  lemma WinnerHas(h: LeaderLogs, el: Elections, t: nat, k: nat, u: nat, voter: Log)
    requires HistoryInv(h, el) && u in el && t < u && t in h && 1 <= k <= |h[t]| && h[t][k - 1].term == t
    requires GoodLog(h, voter) && Holds(h, voter, t, k)
    requires UpToDate(LastTerm(el[u].log), |el[u].log|, LastTerm(voter), |voter|)
    requires forall w :: w in el && t < w < u ==> Holds(h, el[w].log, t, k)
    ensures Holds(h, el[u].log, t, k)
  {
    var log := el[u].log;
    assert TermOk(h, el, u);
    GoodPrefix(h, h[u], |log|);
    assert log == h[u][..|log|];
    assert voter[k - 1] == h[t][..k][k - 1];
    TermsNondecreasing(h, el, voter, k - 1, |voter| - 1);
    LastTermLog(h, log);
    LastTermLog(h, voter);
    var w := LastTerm(log);
    if w == LastTerm(voter) {
      PrefixChain(h[t][..k], voter, log, h[w]);
    } else {
      assert log[|log| - 1] == h[u][|log| - 1];
      assert TermOk(h, el, w);
      LaterEntryIsLater(h, el, w, t, k, |log|);
      PrefixChain(h[t][..k], el[w].log, log, h[w]);
    }
  }

  lemma PrefixChain(p: Log, x: Log, y: Log, z: Log)
    requires p <= x && x <= z && y <= z && (|x| <= |y| || |p| <= |y|)
    ensures p <= y
  {
    assert p == z[..|p|];
    assert y == z[..|y|];
  }

  /** An entry a later leader made itself lies beyond everything it was elected with. */
  lemma LaterEntryIsLater(h: LeaderLogs, el: Elections, w: nat, t: nat, k: nat, i: nat)
    requires w in h && w in el && TermOk(h, el, w) && 1 <= i <= |h[w]| && h[w][i - 1].term == w
    requires Holds(h, el[w].log, t, k)
    ensures k < i
  {
  }

  /** Leader Completeness: what a majority acknowledged in a leader's own term, every later leader had when elected. */
  lemma {:induction false} LeaderCompleteness(sys: Sys, t: nat, k: nat, u: nat)
    requires HistoryInv(sys.history, sys.elections) && ElectionsInv(sys)
    requires t in sys.history && 1 <= k <= |sys.history[t]| && sys.history[t][k - 1].term == t
    requires Majority(sys.acks, |sys.servers|, t, k) && u in sys.elections && t < u
    ensures Holds(sys.history, sys.elections[u].log, t, k)
    decreases u
  {
    forall w | w in sys.elections && t < w < u
      ensures Holds(sys.history, sys.elections[w].log, t, k)
    {
      LeaderCompleteness(sys, t, k, w);
    }
    var v := VoterHas(sys, t, k, u);
    WinnerHas(sys.history, sys.elections, t, k, u, sys.elections[u].voters[v]);
  }

  /** Whatever was committed up to a term is in the log of that term's leader. */
  lemma LeaderHasCommitted(sys: Sys, p: Log, t: nat)
    requires HistoryInv(sys.history, sys.elections) && ElectionsInv(sys)
    requires CommitsInv(sys.history, sys.acks, |sys.servers|, sys.commits)
    requires t in sys.elections && CommittedPrefix(sys.history, sys.commits, p, t)
    ensures t in sys.history && p <= sys.history[t]
  {
    var h, el := sys.history, sys.elections;
    hide ElectionsInv, GoodLog;
    if p != [] {
      var c :| c in sys.commits && c.term <= t && CoveredBy(h, p, c);
      assert CommitOk(h, sys.acks, |sys.servers|, c);
      if c.term < t {
        LeaderCompleteness(sys, c.term, c.index, t);
        assert TermOk(h, el, t);
      }
    }
  }

  // ------------------------------------------------------------ State Machine Safety

  lemma CommitWithin(sys: Sys, c: Commit)
    requires HistoryInv(sys.history, sys.elections)
    requires CommitsInv(sys.history, sys.acks, |sys.servers|, sys.commits) && c in sys.commits
    ensures c.term in sys.elections && c.term in sys.history && 1 <= c.index <= |sys.history[c.term]|
  {
    assert CommitOk(sys.history, sys.acks, |sys.servers|, c);
  }

  lemma CommitsAgree(sys: Sys, c: Commit, d: Commit)
    requires HistoryInv(sys.history, sys.elections) && ElectionsInv(sys)
    requires CommitsInv(sys.history, sys.acks, |sys.servers|, sys.commits)
    requires c in sys.commits && d in sys.commits
    ensures c.term in sys.history && c.index <= |sys.history[c.term]|
    ensures d.term in sys.history && d.index <= |sys.history[d.term]|
    ensures var x, y := sys.history[c.term][..c.index], sys.history[d.term][..d.index]; x <= y || y <= x
  {
    hide HistoryInv, ElectionsInv, CommitsInv;
    var h := sys.history;
    CommitWithin(sys, c);
    CommitWithin(sys, d);
    var x, y := h[c.term][..c.index], h[d.term][..d.index];
    if c.term <= d.term {
      assert CoveredBy(h, x, c);
      LeaderHasCommitted(sys, x, d.term);
      BothPrefixes(x, y, h[d.term]);
    } else {
      assert CoveredBy(h, y, d);
      LeaderHasCommitted(sys, y, c.term);
      BothPrefixes(x, y, h[c.term]);
    }
  }

  lemma BothPrefixes(x: Log, y: Log, z: Log)
    requires x <= z && y <= z
    ensures x <= y || y <= x
  {
    assert x == z[..|x|] && y == z[..|y|];
  }

  lemma AppliedIsCommitted(sys: Sys, e: Entry) returns (c: Commit)
    requires AppliedInv(sys.history, sys.commits, sys.applied) && e in sys.applied
    ensures c in sys.commits && c.term in sys.history && c.index <= |sys.history[c.term]|
    ensures var p := sys.history[c.term][..c.index]; 1 <= e.index <= |p| && p[e.index - 1] == e
  {
    var h := sys.history;
    assert AppliedOk(h, sys.commits, e);
    c :| c in sys.commits && c.term in h && 1 <= e.index <= c.index <= |h[c.term]| && h[c.term][e.index - 1] == e;
  }

  /** State Machine Safety: no two servers ever apply different entries at one index. */
  lemma StateMachineSafety(sys: Sys, e: Entry, f: Entry)
    requires Inv(sys) && e in sys.applied && f in sys.applied && e.index == f.index
    ensures e == f
  {
    hide AppliedInv, HistoryInv, ElectionsInv, CommitsInv, ServersInv, AcksInv, VotesInv, MessagesInv;
    var c := AppliedIsCommitted(sys, e);
    var d := AppliedIsCommitted(sys, f);
    CommitsAgree(sys, c, d);
    SameElement(sys.history[c.term][..c.index], sys.history[d.term][..d.index], e.index - 1);
  }

  lemma SameElement(x: Log, y: Log, i: nat)
    requires (x <= y || y <= x) && i < |x| && i < |y|
    ensures x[i] == y[i]
  {
  }
}
