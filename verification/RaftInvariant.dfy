/** The invariant of the transition system, one clause per kind of state or history. */
module RaftInvariant {
  import opened Options
  import opened RaftServer
  import opened RaftSystem

  type LeaderLogs = map<nat, Log>
  type Elections = map<nat, Election>
  type Acks = map<Key, nat>

  // ------------------------------------------------------------ logs

  /** The log up to an entry is what the leader of that entry's term had there. */
  ghost predicate EntryOk(h: LeaderLogs, log: Log, i: nat)
    requires i < |log|
  {
    log[i].index == i + 1 && log[i].term in h && log[..i + 1] <= h[log[i].term]
  }

  ghost predicate GoodLog(h: LeaderLogs, log: Log) {
    forall i :: 0 <= i < |log| ==> EntryOk(h, log, i)
  }

  ghost predicate TermsUpTo(log: Log, term: nat) {
    forall i :: 0 <= i < |log| ==> log[i].term <= term
  }

  /** A leader's log: what it had when elected, then entries of its own term. */
  ghost predicate TermOk(h: LeaderLogs, el: Elections, t: nat)
    requires t in h && t in el
  {
    && t >= 1 && GoodLog(h, h[t]) && el[t].log <= h[t]
    && (forall i :: 0 <= i < |h[t]| ==> if i < |el[t].log| then h[t][i].term < t else h[t][i].term == t)
  }

  ghost predicate HistoryInv(h: LeaderLogs, el: Elections) {
    && el.Keys == h.Keys
    && (forall t :: t in h ==> TermOk(h, el, t))
  }

  // ------------------------------------------------------------ what servers retain

  ghost predicate Holds(h: LeaderLogs, log: Log, t: nat, k: nat) {
    t in h && k <= |h[t]| && h[t][..k] <= log
  }

  /** A leader elected between `t` and `bound` without the first `k` entries of term `t`'s leader. */
  ghost predicate Lost(h: LeaderLogs, el: Elections, t: nat, k: nat, bound: nat) {
    exists u :: u in el && t < u < bound && !Holds(h, el[u].log, t, k)
  }

  /** What `v` acknowledged at `t`, it has in `log` unless a leader before `bound` lacked it. */
  ghost predicate Retained(h: LeaderLogs, el: Elections, acks: Acks, v: nat, log: Log, bound: nat, t: nat, k: nat) {
    Key(v, t) in acks && t < bound && k <= acks[Key(v, t)] ==> Holds(h, log, t, k) || Lost(h, el, t, k, bound)
  }

  ghost predicate Retains(h: LeaderLogs, el: Elections, acks: Acks, v: nat, log: Log, bound: nat) {
    forall t: nat, k: nat :: Retained(h, el, acks, v, log, bound, t, k)
  }

  // ------------------------------------------------------------ commits

  ghost predicate CoveredBy(h: LeaderLogs, p: Log, c: Commit) {
    c.term in h && c.index <= |h[c.term]| && p <= h[c.term][..c.index]
  }

  /** The entries are part of something committed in a term up to `t`. */
  ghost predicate CommittedPrefix(h: LeaderLogs, commits: set<Commit>, p: Log, t: nat) {
    p == [] || exists c :: c in commits && c.term <= t && CoveredBy(h, p, c)
  }

  ghost predicate AllAcked(acks: Acks, q: set<nat>, t: nat, k: nat) {
    forall v :: v in q ==> Key(v, t) in acks && acks[Key(v, t)] >= k
  }

  /** Committed by counting: an entry of the leader's own term, acknowledged by a majority. */
  ghost predicate CommitOk(h: LeaderLogs, acks: Acks, size: nat, c: Commit) {
    && c.term in h && 1 <= c.index <= |h[c.term]| && h[c.term][c.index - 1].term == c.term
    && exists q :: IsQuorum(q, size) && AllAcked(acks, q, c.term, c.index)
  }

  ghost predicate CommitsInv(h: LeaderLogs, acks: Acks, size: nat, commits: set<Commit>) {
    forall c :: c in commits ==> CommitOk(h, acks, size, c)
  }

  ghost predicate AppliedOk(h: LeaderLogs, commits: set<Commit>, e: Entry) {
    exists c :: c in commits && c.term in h && 1 <= e.index <= c.index <= |h[c.term]| && h[c.term][e.index - 1] == e
  }

  ghost predicate AppliedInv(h: LeaderLogs, commits: set<Commit>, applied: set<Entry>) {
    forall e :: e in applied ==> AppliedOk(h, commits, e)
  }

  // ------------------------------------------------------------ servers

  ghost predicate RoleOk(h: LeaderLogs, el: Elections, sv: Server, s: nat) {
    && (sv.role.Candidate? ==> sv.votedFor == Some(s) && sv.term >= 1)
    && (sv.role.Leader? ==>
          && sv.votedFor == Some(s) && sv.term in el && el[sv.term].leader == s
          && sv.term in h && sv.log == h[sv.term])
  }

  ghost predicate ServerOk(h: LeaderLogs, el: Elections, commits: set<Commit>, sv: Server, s: nat) {
    && GoodLog(h, sv.log) && TermsUpTo(sv.log, sv.term) && RoleOk(h, el, sv, s)
    && sv.lastApplied <= sv.commitIndex <= |sv.log|
    && CommittedPrefix(h, commits, sv.log[..sv.commitIndex], sv.term)
  }

  /** A leader's view of one peer never runs ahead of its own log or of what the peer acknowledged. */
  ghost predicate PeerOk(acks: Acks, size: nat, sv: Server, s: nat, p: nat)
    requires p in sv.peers
  {
    && p < size && p != s
    && 1 <= sv.peers[p].nextIndex <= |sv.log| + 1 && sv.peers[p].matchIndex <= |sv.log|
    && (sv.peers[p].matchIndex > 0 ==> Key(p, sv.term) in acks && acks[Key(p, sv.term)] >= sv.peers[p].matchIndex)
  }

  ghost predicate PeersOk(acks: Acks, size: nat, sv: Server, s: nat) {
    sv.role.Leader? ==>
      && sv.peers.Keys == Others(s, size)
      && (forall p :: p in sv.peers ==> PeerOk(acks, size, sv, s, p))
      && Key(s, sv.term) in acks && acks[Key(s, sv.term)] == |sv.log|
  }

  ghost predicate ServersInv(sys: Sys) {
    forall s :: 0 <= s < |sys.servers| ==>
      && ServerOk(sys.history, sys.elections, sys.commits, sys.servers[s], s)
      && PeersOk(sys.acks, |sys.servers|, sys.servers[s], s)
  }

  ghost predicate AckOk(h: LeaderLogs, acks: Acks, servers: seq<Server>, k: Key)
    requires k in acks
  {
    k.server < |servers| && k.term in h && acks[k] <= |h[k.term]| && k.term <= servers[k.server].term
  }

  ghost predicate AcksInv(h: LeaderLogs, el: Elections, acks: Acks, servers: seq<Server>) {
    && (forall k :: k in acks ==> AckOk(h, acks, servers, k))
    && (forall v :: 0 <= v < |servers| ==> Retains(h, el, acks, v, servers[v].log, servers[v].term + 1))
  }

  // ------------------------------------------------------------ votes and elections

  /** The request still describes the candidate while it is one. */
  ghost predicate ReqFresh(c: Server, req: VoteReq) {
    && req.term <= c.term
    && (req.term == c.term && c.role.Candidate? ==> req.lastIndex == |c.log| && req.lastTerm == LastTerm(c.log))
  }

  /** A voter keeps its vote for as long as it stays in the term. */
  ghost predicate VoteStands(v: Server, candidate: nat, term: nat) {
    term <= v.term && (term == v.term ==> v.votedFor == Some(candidate) && v.role.Follower?)
  }

  ghost predicate VoteOk(h: LeaderLogs, el: Elections, acks: Acks, servers: seq<Server>, k: Key, r: Vote) {
    && k.server < |servers| && r.candidate < |servers| && k.server != r.candidate
    && r.req.term == k.term && r.req.candidate == r.candidate
    && VoteStands(servers[k.server], r.candidate, k.term) && ReqFresh(servers[r.candidate], r.req)
    && GoodLog(h, r.log) && UpToDate(r.req.lastTerm, r.req.lastIndex, LastTerm(r.log), |r.log|)
    && Retains(h, el, acks, k.server, r.log, k.term)
  }

  ghost predicate VotesInv(sys: Sys) {
    forall k :: k in sys.votes ==> VoteOk(sys.history, sys.elections, sys.acks, sys.servers, k, sys.votes[k])
  }

  /** The winner keeps its own vote and never stands again in that term. */
  ghost predicate WinnerStands(c: Server, leader: nat, term: nat) {
    term <= c.term && (term == c.term ==> c.votedFor == Some(leader) && !c.role.Candidate?)
  }

  ghost predicate VoterOk(h: LeaderLogs, el: Elections, acks: Acks, votes: map<Key, Vote>, servers: seq<Server>, t: nat,
      v: nat)
    requires t in el && v in el[t].voters
  {
    var e, log := el[t], el[t].voters[v];
    && v < |servers| && t <= servers[v].term
    && GoodLog(h, log) && UpToDate(LastTerm(e.log), |e.log|, LastTerm(log), |log|)
    && Retains(h, el, acks, v, log, t)
    && (v != e.leader ==> Key(v, t) in votes && votes[Key(v, t)].candidate == e.leader)
  }

  ghost predicate ElectionOk(h: LeaderLogs, el: Elections, acks: Acks, votes: map<Key, Vote>, servers: seq<Server>,
      t: nat)
    requires t in el
  {
    var e := el[t];
    && e.leader < |servers| && IsQuorum(e.voters.Keys, |servers|) && e.leader in e.voters
    && WinnerStands(servers[e.leader], e.leader, t)
    && (forall v :: v in e.voters ==> VoterOk(h, el, acks, votes, servers, t, v))
  }

  ghost predicate ElectionsInv(sys: Sys) {
    forall t :: t in sys.elections ==>
      ElectionOk(sys.history, sys.elections, sys.acks, sys.votes, sys.servers, t)
  }

  // ------------------------------------------------------------ messages

  ghost predicate AskAppendOk(h: LeaderLogs, el: Elections, commits: set<Commit>, from: nat, to: nat, req: AppendReq) {
    && from != to && req.leader == from
    && req.term in el && req.term in h && el[req.term].leader == from
    && var log, m := h[req.term], req.prevIndex + |req.entries|;
       && m <= |log| && req.entries == log[req.prevIndex..m] && req.prevTerm == TermAt(log, req.prevIndex)
       && req.leaderCommit <= m && CommittedPrefix(h, commits, log[..req.leaderCommit], req.term)
  }

  ghost predicate ReplyAppendOk(h: LeaderLogs, acks: Acks, from: nat, req: AppendReq, resp: AppendResp) {
    && req.term in h && req.prevIndex + |req.entries| <= |h[req.term]|
    && (if resp.success
        then Key(from, req.term) in acks && acks[Key(from, req.term)] >= req.prevIndex + |req.entries|
        else resp.term > req.term || 1 <= resp.conflictIndex <= req.prevIndex)
  }

  ghost predicate AskVoteOk(servers: seq<Server>, from: nat, to: nat, req: VoteReq) {
    from < |servers| && from != to && req.candidate == from && ReqFresh(servers[from], req)
  }

  ghost predicate ReplyVoteOk(el: Elections, votes: map<Key, Vote>, from: nat, to: nat, req: VoteReq, resp: VoteResp) {
    resp.granted ==>
      && from != to
      && (Key(from, req.term) in votes ==> votes[Key(from, req.term)].candidate == to)
      && (req.term !in el ==> Key(from, req.term) in votes)
      && (req.term in el ==> el[req.term].leader != from)
  }

  ghost predicate MessageOk(sys: Sys, m: Message) {
    match m
    case AskVote(from, to, req) => AskVoteOk(sys.servers, from, to, req)
    case ReplyVote(from, to, req, resp) => ReplyVoteOk(sys.elections, sys.votes, from, to, req, resp)
    case AskAppend(from, to, req) => AskAppendOk(sys.history, sys.elections, sys.commits, from, to, req)
    case ReplyAppend(from, _, req, resp) => ReplyAppendOk(sys.history, sys.acks, from, req, resp)
  }

  ghost predicate MessagesInv(sys: Sys) {
    forall m :: m in sys.messages ==> MessageOk(sys, m)
  }

  // ------------------------------------------------------------ all of it

  ghost predicate Inv(sys: Sys) {
    && |sys.servers| > 0
    && HistoryInv(sys.history, sys.elections)
    && ServersInv(sys)
    && AcksInv(sys.history, sys.elections, sys.acks, sys.servers)
    && VotesInv(sys)
    && ElectionsInv(sys)
    && MessagesInv(sys)
    && CommitsInv(sys.history, sys.acks, |sys.servers|, sys.commits)
    && AppliedInv(sys.history, sys.commits, sys.applied)
  }

  lemma InitInv(sys: Sys)
    requires Init(sys)
    ensures Inv(sys)
  {
  }

  // ------------------------------------------------------------ facts about logs

  /** Log Matching: equal terms at an index mean equal logs up to it. */
  lemma LogMatching(h: LeaderLogs, x: Log, y: Log, i: nat)
    requires GoodLog(h, x) && GoodLog(h, y) && i < |x| && i < |y| && x[i].term == y[i].term
    ensures x[..i + 1] == y[..i + 1]
  {
    assert EntryOk(h, x, i) && EntryOk(h, y, i);
  }

  /** A longer log whose entry at `j` has the term another log has at `i <= j` agrees up to `i`. */
  lemma SameTermSameRun(h: LeaderLogs, el: Elections, x: Log, y: Log, i: nat, j: nat)
    requires HistoryInv(h, el) && GoodLog(h, x) && GoodLog(h, y)
    requires i < |x| && i <= j < |y| && x[i].term == y[j].term
    ensures y[i].term == x[i].term && x[..i + 1] == y[..i + 1]
  {
    var t := x[i].term;
    assert EntryOk(h, x, i) && EntryOk(h, y, j) && TermOk(h, el, t);
    assert y[i] == y[..j + 1][i] == h[t][i] == x[..i + 1][i];
    LogMatching(h, x, y, i);
  }

  lemma TermsNondecreasing(h: LeaderLogs, el: Elections, log: Log, i: nat, j: nat)
    requires HistoryInv(h, el) && GoodLog(h, log) && i <= j < |log|
    ensures 1 <= log[i].term <= log[j].term
  {
    var t := log[j].term;
    assert EntryOk(h, log, j) && EntryOk(h, log, i) && TermOk(h, el, t) && TermOk(h, el, log[i].term);
    assert log[i] == log[..j + 1][i] == h[t][i];
  }

  lemma GoodPrefix(h: LeaderLogs, log: Log, k: nat)
    requires GoodLog(h, log) && k <= |log|
    ensures GoodLog(h, log[..k])
  {
    forall i | 0 <= i < k
      ensures EntryOk(h, log[..k], i)
    {
      assert EntryOk(h, log, i);
      assert log[..k][..i + 1] == log[..i + 1];
    }
  }

  /** A log is a prefix of what the leader of its last term built. */
  lemma LastTermLog(h: LeaderLogs, log: Log)
    requires GoodLog(h, log) && log != []
    ensures LastTerm(log) in h && log <= h[LastTerm(log)]
  {
    assert EntryOk(h, log, |log| - 1);
    assert log[..|log|] == log;
  }
}
