/** A follower takes over its leader's entries: what merging does to a log, and why nothing promised is lost. */
module RaftFollowers {
  import opened Sequences
  import opened RaftServer
  import opened RaftSystem
  import opened RaftInvariant
  import opened RaftSafety
  import opened RaftSteps

  // ------------------------------------------------------------ merging

  /** After a matching request the log is the leader's up to the request's end, or already contains that. */
  lemma {:induction false} MergeIsPrefix(h: LeaderLogs, log: Log, leader: Log, prev: nat, m: nat)
    requires GoodLog(h, log) && GoodLog(h, leader) && prev <= m <= |leader| && prev <= |log|
    requires log[..prev] == leader[..prev]
    ensures MergeEntries(log, prev, leader[prev..m]) == if leader[..m] <= log then log else leader[..m]
    decreases m - prev
  {
    var entries := leader[prev..m];
    MiddleSplit(leader, prev, m);
    if prev < m {
      assert entries[0] == leader[prev];
      if prev == |log| {
        Whole(log);
      } else if log[prev].term != leader[prev].term {
        assert leader[..m][prev] == leader[prev];
      } else {
        LogMatching(h, log, leader, prev);
        MergeIsPrefix(h, log, leader, prev + 1, m);
        assert entries[1..] == leader[prev + 1..m];
      }
    }
  }

  /** The consistency check compares one term; Log Matching makes it compare the whole prefix. */
  lemma MatchedPrefix(h: LeaderLogs, log: Log, leader: Log, req: AppendReq)
    requires GoodLog(h, log) && GoodLog(h, leader) && Matches(log, req)
    requires req.prevIndex <= |leader| && req.prevTerm == TermAt(leader, req.prevIndex)
    ensures log[..req.prevIndex] == leader[..req.prevIndex]
  {
    if req.prevIndex > 0 {
      LogMatching(h, log, leader, req.prevIndex - 1);
    }
  }

  // ------------------------------------------------------------ what is kept

  ghost predicate Common(x: Log, y: Log, k: nat) {
    k <= |x| && k <= |y| && x[..k] == y[..k]
  }

  /** Everything `a` shares with the leader's log is still in `b`. */
  ghost predicate KeepsCommon(a: Log, b: Log, leader: Log) {
    forall k: nat :: Common(a, leader, k) ==> k <= |b| && b[..k] == a[..k]
  }

  lemma MergeKeepsCommon(log: Log, leader: Log, m: nat)
    requires m <= |leader| && !(leader[..m] <= log)
    ensures KeepsCommon(log, leader[..m], leader)
  {
    forall k: nat | Common(log, leader, k)
      ensures k <= m && leader[..m][..k] == log[..k]
    {
      CommonIsShort(log, leader, k, m);
      TakeTake(leader, k, m);
    }
  }

  lemma CommonIsShort(log: Log, leader: Log, k: nat, m: nat)
    requires Common(log, leader, k) && m <= |leader| && !(leader[..m] <= log)
    ensures k <= m
  {
    if k > m {
      TakeTake(leader, m, k);
      TakeTake(log, m, k);
    }
  }

  lemma CutKeepsCommon(log: Log, leader: Log, cut: nat)
    requires cut < |log| && cut < |leader| && log[cut] != leader[cut]
    ensures KeepsCommon(log, log[..cut], leader)
  {
    forall k: nat | Common(log, leader, k)
      ensures k <= cut && log[..cut][..k] == log[..k]
    {
      if k > cut {
        SameAt(log, leader, k, cut);
        assert false;
      }
    }
  }

  lemma CommonPrefix(p: Log, log: Log, log': Log, leader: Log)
    requires p <= log && p <= leader && KeepsCommon(log, log', leader)
    ensures p <= log'
  {
    assert log[..|p|] == p == leader[..|p|];
    assert Common(log, leader, |p|);
  }

  // ------------------------------------------------------------ taking over

  lemma TakeOverRetains(h: LeaderLogs, el: Elections, acks: Acks, s: nat, log: Log, log': Log, t: nat)
    requires HistoryInv(h, el) && t in h && KeepsCommon(log, log', h[t])
    requires Retains(h, el, acks, s, log, t + 1)
    ensures Retains(h, el, acks, s, log', t + 1)
  {
    var bound := t + 1;
    forall t0: nat, k: nat
      ensures Retained(h, el, acks, s, log', bound, t0, k)
    {
      assert Retained(h, el, acks, s, log, bound, t0, k);
      if t0 < bound && Holds(h, log, t0, k) {
        if t0 == t || Holds(h, el[t].log, t0, k) {
          assert TermOk(h, el, t);
          assert h[t0][..k] <= h[t];
          CommonPrefix(h[t0][..k], log, log', h[t]);
        } else {
          assert t in el && t0 < t < bound && !Holds(h, el[t].log, t0, k);
        }
      }
    }
  }

  lemma ElectedTerms(h: LeaderLogs, el: Elections)
    requires HistoryInv(h, el)
    ensures forall t :: t in h <==> t in el
  {
  }

  /** Replacing a follower's log by one that keeps all it shares with the leader of its term. */
  lemma TakeOver(sys: Sys, s: nat, log': Log)
    requires Inv(sys) && s < |sys.servers| && sys.servers[s].role.Follower? && sys.servers[s].term in sys.history
    requires GoodLog(sys.history, log') && TermsUpTo(log', sys.servers[s].term)
    requires KeepsCommon(sys.servers[s].log, log', sys.history[sys.servers[s].term])
    ensures Inv(Put(sys, s, sys.servers[s].(log := log')))
  {
    hide VotesInv, ElectionsInv, MessagesInv, AcksInv, ServersInv, HistoryInv, CommitsInv, AppliedInv, Retains, GoodLog,
         CommittedPrefix, KeepsCommon;
    var a, t := sys.servers[s], sys.servers[s].term;
    ServerFacts(sys, s);
    ElectedTerms(sys.history, sys.elections);
    TakeOverRetains(sys.history, sys.elections, sys.acks, s, a.log, log', t);
    var p := a.log[..a.commitIndex];
    LeaderHasCommitted(sys, p, t);
    CommonPrefix(p, a.log, log', sys.history[t]);
    assert log'[..a.commitIndex] == p;
    MoveKeeps(sys, s, a.(log := log'));
  }
}
