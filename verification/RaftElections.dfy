/** Who gets votes: the up-to-date check as a relation between logs, and that every quorum can elect. */
module RaftElections {
  import opened Options
  import opened RaftServer
  import opened RaftSystem
  import opened RaftInvariant
  import opened RaftRuns

  /** Nothing but the logs keeps the voter from voting for `candidate` in `term`. */
  predicate FreeFor(voter: Server, candidate: nat, term: nat) {
    || term > voter.term
    || (term == voter.term && (voter.votedFor.None? || voter.votedFor == Some(candidate)))
  }

  /** The voter's answer to the request `c` with number `s` would make as a candidate in `term`. */
  function Asked(voter: Server, c: Server, s: nat, term: nat): (granted: bool) {
    HandleVote(voter, ElectionRequest(c.(term := term), s)).resp.granted
  }

  /** The voter's last entry is of a later term, or its log goes on where the candidate's ends. */
  predicate Ahead(voter: Log, candidate: Log) {
    LastTerm(voter) > LastTerm(candidate) || candidate < voter
  }

  /** The last term is that of an entry, and 0 only on an empty log. */
  lemma LastTermPositive(h: LeaderLogs, el: Elections, log: Log)
    requires HistoryInv(h, el) && GoodLog(h, log)
    ensures log != [] <==> LastTerm(log) >= 1
  {
    if log != [] {
      TermsNondecreasing(h, el, log, |log| - 1, |log| - 1);
    }
  }

  /** Logs that end in one term are prefixes of what its leader built, so one starts the other. */
  lemma SameLastTerm(h: LeaderLogs, el: Elections, x: Log, y: Log)
    requires HistoryInv(h, el) && GoodLog(h, x) && GoodLog(h, y) && LastTerm(x) == LastTerm(y)
    ensures if |x| <= |y| then x <= y else y < x
  {
    hide GoodLog, HistoryInv;
    LastTermPositive(h, el, x);
    LastTermPositive(h, el, y);
    if x != [] {
      LastTermLog(h, x);
      LastTermLog(h, y);
    }
  }

  /** A log that goes on where another ends does not end in an earlier term. */
  lemma LongerEndsLater(h: LeaderLogs, el: Elections, x: Log, y: Log)
    requires HistoryInv(h, el) && GoodLog(h, y) && x <= y
    ensures LastTerm(x) <= LastTerm(y)
  {
    if x != [] {
      assert x[|x| - 1] == y[|x| - 1];
      TermsNondecreasing(h, el, y, |x| - 1, |y| - 1);
    }
  }

  lemma GrantedExactlyWhen(h: LeaderLogs, el: Elections, voter: Server, c: Server, s: nat, term: nat)
    requires HistoryInv(h, el) && GoodLog(h, voter.log) && GoodLog(h, c.log)
    ensures Asked(voter, c, s, term) <==> FreeFor(voter, s, term) && !Ahead(voter.log, c.log)
  {
    hide GoodLog, HistoryInv;
    if LastTerm(voter.log) == LastTerm(c.log) {
      SameLastTerm(h, el, c.log, voter.log);
    }
    if c.log < voter.log {
      LongerEndsLater(h, el, c.log, voter.log);
    }
  }

  lemma RunLogFacts(run: seq<Sys>, i: nat, s: nat)
    requires IsExecution(run) && i < |run| && s < |run[i].servers|
    ensures HistoryInv(run[i].history, run[i].elections) && GoodLog(run[i].history, run[i].servers[s].log)
  {
    hide IsExecution, HistoryInv, GoodLog;
    LaterLog(run, i, i, s);
  }

  /**
   * In every reachable state a server votes for a candidate exactly when it is free to in that term
   * and its log is not ahead of the candidate's.
   */
  lemma RunGrantedExactlyWhen(run: seq<Sys>, i: nat, v: nat, s: nat, term: nat)
    requires IsExecution(run) && i < |run| && v < |run[i].servers| && s < |run[i].servers|
    ensures Asked(run[i].servers[v], run[i].servers[s], s, term)
            <==> FreeFor(run[i].servers[v], s, term) && !Ahead(run[i].servers[v].log, run[i].servers[s].log)
  {
    hide IsExecution, HistoryInv, GoodLog, Asked, Ahead, FreeFor;
    RunLogFacts(run, i, v);
    RunLogFacts(run, i, s);
    GrantedExactlyWhen(run[i].history, run[i].elections, run[i].servers[v], run[i].servers[s], s, term);
  }

  /**
   * Of two servers free for each other at least one gets the other's vote, and both do exactly when
   * their logs are equal.
   */
  lemma RunOneOfTwoIsElectable(run: seq<Sys>, i: nat, s: nat, r: nat, t: nat, u: nat)
    requires IsExecution(run) && i < |run| && s < |run[i].servers| && r < |run[i].servers|
    requires FreeFor(run[i].servers[s], r, t) && FreeFor(run[i].servers[r], s, u)
    ensures var a, b := run[i].servers[s], run[i].servers[r];
            && (Asked(a, b, r, t) || Asked(b, a, s, u))
            && (Asked(a, b, r, t) && Asked(b, a, s, u) <==> a.log == b.log)
  {
    hide IsExecution, HistoryInv, GoodLog, Asked, FreeFor;
    RunLogFacts(run, i, s);
    RunLogFacts(run, i, r);
    RunGrantedExactlyWhen(run, i, s, r, t);
    RunGrantedExactlyWhen(run, i, r, s, u);
    NotBothAhead(run[i].history, run[i].elections, run[i].servers[s].log, run[i].servers[r].log);
  }

  lemma NotBothAhead(h: LeaderLogs, el: Elections, x: Log, y: Log)
    requires HistoryInv(h, el) && GoodLog(h, x) && GoodLog(h, y)
    ensures !(Ahead(x, y) && Ahead(y, x))
    ensures !Ahead(x, y) && !Ahead(y, x) <==> x == y
  {
    hide GoodLog, HistoryInv;
    if LastTerm(x) == LastTerm(y) {
      SameLastTerm(h, el, x, y);
    }
    if x < y {
      LongerEndsLater(h, el, x, y);
    }
    if y < x {
      LongerEndsLater(h, el, y, x);
    }
  }

  // ------------------------------------------------------------ every quorum can elect

  lemma AheadChains(h: LeaderLogs, el: Elections, x: Log, y: Log, z: Log)
    requires HistoryInv(h, el) && GoodLog(h, x) && GoodLog(h, y) && GoodLog(h, z) && Ahead(x, y) && !Ahead(z, y)
    ensures !Ahead(z, x)
  {
    hide GoodLog, HistoryInv;
    NotBothAhead(h, el, x, y);
    if y < x {
      LongerEndsLater(h, el, y, x);
    }
    if x < z {
      LongerEndsLater(h, el, x, z);
    }
    if LastTerm(z) == LastTerm(y) {
      SameLastTerm(h, el, z, y);
    }
    if LastTerm(z) == LastTerm(x) {
      SameLastTerm(h, el, z, x);
    }
  }

  ghost predicate NoneAhead(servers: seq<Server>, q: set<nat>, s: nat)
    requires s < |servers| && forall v :: v in q ==> v < |servers|
  {
    forall v :: v in q ==> !Ahead(servers[v].log, servers[s].log)
  }

  lemma {:induction false} MostAhead(h: LeaderLogs, el: Elections, servers: seq<Server>, q: set<nat>) returns (s: nat)
    requires HistoryInv(h, el) && q != {} && forall v :: v in q ==> v < |servers|
    requires forall v :: v in q ==> GoodLog(h, servers[v].log)
    ensures s in q && NoneAhead(servers, q, s)
  {
    hide GoodLog, HistoryInv, Ahead;
    var v :| v in q;
    var rest := q - {v};
    NotBothAhead(h, el, servers[v].log, servers[v].log);
    assert q == rest + {v};
    if rest == {} {
      s := v;
      assert NoneAhead(servers, q, s);
    } else {
      s := MostAhead(h, el, servers, rest);
      if Ahead(servers[v].log, servers[s].log) {
        forall z | z in q
          ensures !Ahead(servers[z].log, servers[v].log)
        {
          if z != v {
            AheadChains(h, el, servers[v].log, servers[s].log, servers[z].log);
          }
        }
        s := v;
      } else {
        assert forall z :: z in q ==> z in rest || z == v;
      }
    }
  }

  /** In every reachable state every quorum has a member for which all its free members would vote. */
  lemma RunQuorumCanElect(run: seq<Sys>, i: nat, q: set<nat>) returns (s: nat)
    requires IsExecution(run) && i < |run| && IsQuorum(q, |run[i].servers|)
    ensures s in q && s < |run[i].servers|
    ensures forall v, term: nat :: v in q && FreeFor(run[i].servers[v], s, term) ==>
              Asked(run[i].servers[v], run[i].servers[s], s, term)
  {
    hide IsExecution, HistoryInv, GoodLog, Asked, Ahead, FreeFor;
    var sys := run[i];
    ExecutionInv(run, i);
    forall v | v in q
      ensures HistoryInv(sys.history, sys.elections) && GoodLog(sys.history, sys.servers[v].log)
    {
      RunLogFacts(run, i, v);
    }
    s := MostAhead(sys.history, sys.elections, sys.servers, q);
    forall v, term: nat | v in q && FreeFor(sys.servers[v], s, term)
      ensures Asked(sys.servers[v], sys.servers[s], s, term)
    {
      RunGrantedExactlyWhen(run, i, v, s, term);
    }
  }
}
