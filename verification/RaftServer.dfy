/** One Raft server's state and its handlers, as functions from state to state. */
module RaftServer {
  import opened Numbers
  import opened Options
  import opened DocumentFsm

  /** A log entry; a no-op carries no data. */
  datatype Entry = Entry(index: nat, term: nat, data: Option<Submission>)

  type Log = seq<Entry>

  datatype Role = Follower | Candidate | Leader

  datatype Peer = Peer(nextIndex: nat, matchIndex: nat)

  /** Servers are numbered; currentTerm, votedFor and the log survive a crash. */
  datatype Server = Server(
    term: nat, votedFor: Option<nat>, log: Log,
    role: Role, commitIndex: nat, lastApplied: nat, peers: map<nat, Peer>)

  datatype VoteReq = VoteReq(term: nat, candidate: nat, lastIndex: nat, lastTerm: nat)
  datatype VoteResp = VoteResp(term: nat, granted: bool)
  datatype Voted = Voted(server: Server, resp: VoteResp)

  datatype AppendReq = AppendReq(
    term: nat, leader: nat, prevIndex: nat, prevTerm: nat, entries: seq<Entry>, leaderCommit: nat)
  datatype AppendResp = AppendResp(term: nat, success: bool, conflictTerm: nat, conflictIndex: nat)
  datatype Appended = Appended(server: Server, resp: AppendResp)

  function TermAt(log: Log, i: nat): (t: nat)
    requires i <= |log|
  {
    if i == 0 then 0 else log[i - 1].term
  }

  function LastTerm(log: Log): (t: nat) {
    TermAt(log, |log|)
  }

  predicate UpToDate(candTerm: nat, candIndex: nat, term: nat, index: nat) {
    candTerm > term || (candTerm == term && candIndex >= index)
  }

  function StepDown(s: Server, term: nat): (r: Server) {
    s.(term := term, role := Follower, votedFor := None)
  }

  function StartElection(s: Server, self: nat): (r: Server) {
    s.(term := s.term + 1, votedFor := Some(self), role := Candidate)
  }

  function ElectionRequest(s: Server, self: nat): (r: VoteReq) {
    VoteReq(s.term, self, |s.log|, LastTerm(s.log))
  }

  function BecomeLeader(s: Server, self: nat, size: nat): (r: Server) {
    s.(role := Leader, peers := FreshPeers(self, size, |s.log|))
  }

  /** The servers of a cluster of `size`. */
  function Ids(size: nat): (r: set<nat>)
    ensures forall p: nat :: p in r <==> p < size
    ensures |r| == size
  {
    if size == 0 then {} else Ids(size - 1) + {size - 1}
  }

  function Others(self: nat, size: nat): (r: set<nat>) {
    Ids(size) - {self}
  }

  /** Every peer starts optimistic about what to send and pessimistic about what is replicated. */
  function FreshPeers(self: nat, size: nat, lastIndex: nat): (r: map<nat, Peer>) {
    map p | p in Others(self, size) :: Peer(lastIndex + 1, 0)
  }

  /** What a crash leaves: the persistent fields, everything else as after start-up. */
  function Restarted(s: Server): (r: Server) {
    s.(role := Follower, commitIndex := 0, lastApplied := 0, peers := map[])
  }

  function AppendCommand(s: Server, data: Option<Submission>): (r: Server) {
    s.(log := s.log + [Entry(|s.log| + 1, s.term, data)])
  }

  /** The term rule that precedes every vote decision. */
  function SeeTerm(s: Server, term: nat): (r: Server) {
    if term > s.term then StepDown(s, term) else s
  }

  predicate Grants(s: Server, req: VoteReq) {
    && (s.votedFor.Some? ==> s.votedFor.value == req.candidate)
    && UpToDate(req.lastTerm, req.lastIndex, LastTerm(s.log), |s.log|)
  }

  function HandleVote(s: Server, req: VoteReq): (r: Voted) {
    if req.term < s.term then Voted(s, VoteResp(s.term, false))
    else
      var s1 := SeeTerm(s, req.term);
      if Grants(s1, req)
      then Voted(s1.(votedFor := Some(req.candidate)), VoteResp(s1.term, true))
      else Voted(s1, VoteResp(s1.term, false))
  }

  /** A server that hears from the leader of its term, or of a later one, follows it. */
  function Submit(s: Server, term: nat): (r: Server) {
    if term > s.term || !s.role.Follower? then StepDown(s, term) else s
  }

  /** The first index of the run of equal terms that ends at `i`. */
  function RunStart(log: Log, i: nat): (j: nat)
    requires 1 <= i <= |log|
    ensures 1 <= j <= i
    ensures forall k :: j - 1 <= k < i ==> log[k].term == log[i - 1].term
    ensures j > 1 ==> log[j - 2].term != log[i - 1].term
  {
    if i > 1 && log[i - 2].term == log[i - 1].term then RunStart(log, i - 1) else i
  }

  /** Skip matching entries; at the first conflict or gap, cut and append the rest. */
  function MergeEntries(log: Log, prev: nat, entries: seq<Entry>): (r: Log)
    requires prev <= |log|
    decreases entries
  {
    if entries == [] then log
    else if prev == |log| then log + entries
    else if log[prev].term != entries[0].term then log[..prev] + entries
    else MergeEntries(log, prev + 1, entries[1..])
  }

  predicate Matches(log: Log, req: AppendReq) {
    req.prevIndex <= |log| && (req.prevIndex > 0 ==> log[req.prevIndex - 1].term == req.prevTerm)
  }

  /** Take the entries in and advance the commit index as far as both sides reach. */
  function Accept(s: Server, req: AppendReq): (r: Server)
    requires Matches(s.log, req)
  {
    var log := MergeEntries(s.log, req.prevIndex, req.entries);
    s.(log := log,
       commitIndex := if req.leaderCommit > s.commitIndex then Min(req.leaderCommit, |log|) else s.commitIndex)
  }

  /** The refusal's hint for fast backup. */
  function Refusal(s: Server, req: AppendReq): (r: AppendResp)
    requires !Matches(s.log, req)
  {
    if |s.log| < req.prevIndex then AppendResp(s.term, false, 0, |s.log| + 1)
    else AppendResp(s.term, false, s.log[req.prevIndex - 1].term, RunStart(s.log, req.prevIndex))
  }

  function HandleAppend(s: Server, req: AppendReq): (r: Appended) {
    if req.term < s.term then Appended(s, AppendResp(s.term, false, 0, 0))
    else
      var s1 := Submit(s, req.term);
      if Matches(s1.log, req) then Appended(Accept(s1, req), AppendResp(s1.term, true, 0, 0))
      else Appended(s1, Refusal(s1, req))
  }

  /** The request a leader builds for a peer: everything from nextIndex to its last entry. */
  function BuildAppend(s: Server, self: nat, p: Peer): (r: AppendReq)
    requires p.nextIndex >= 1
  {
    var prev := p.nextIndex - 1;
    if prev <= |s.log|
    then AppendReq(s.term, self, prev, TermAt(s.log, prev), s.log[prev..], s.commitIndex)
    else AppendReq(s.term, self, prev, 0, [], s.commitIndex)
  }

  /** The last index of `term` in the log, or 0. */
  function LastOfTerm(log: Log, term: nat): (i: nat)
    ensures i <= |log|
    ensures i > 0 ==> log[i - 1].term == term
    ensures forall k :: i <= k < |log| ==> log[k].term != term
  {
    if log == [] then 0
    else if log[|log| - 1].term == term then |log|
    else LastOfTerm(log[..|log| - 1], term)
  }

  /** Where a refusal makes the leader try next. */
  function Backup(log: Log, resp: AppendResp): (next: nat)
    ensures next >= 1
  {
    var i := LastOfTerm(log, resp.conflictTerm);
    var next := if resp.conflictTerm > 0 && i > 0 then i + 1 else resp.conflictIndex;
    if next < 1 then 1 else next
  }

  // ------------------------------------------------------------ the commit rule

  function InsertDesc(x: nat, s: seq<nat>): (r: seq<nat>)
    ensures |r| == |s| + 1
  {
    if s == [] || x >= s[0] then [x] + s else [s[0]] + InsertDesc(x, s[1..])
  }

  function SortDesc(s: seq<nat>): (r: seq<nat>)
    ensures |r| == |s|
  {
    if s == [] then [] else InsertDesc(s[0], SortDesc(s[1..]))
  }

  function MatchOf(s: Server, self: nat, p: nat): (m: nat) {
    if p == self then |s.log| else if p in s.peers then s.peers[p].matchIndex else 0
  }

  function MatchIndexes(s: Server, self: nat, size: nat): (r: seq<nat>)
    ensures |r| == size
    ensures forall p :: 0 <= p < size ==> r[p] == MatchOf(s, self, p)
  {
    seq(size, p requires 0 <= p < size => MatchOf(s, self, p))
  }

  /** The match index at position majority - 1 of the descending order. */
  function QuorumIndex(s: Server, self: nat, size: nat): (r: nat)
    requires size > 0
  {
    SortDesc(MatchIndexes(s, self, size))[size / 2]
  }

  function AdvanceCommit(s: Server, self: nat, size: nat): (r: Server)
    requires size > 0
  {
    var k := QuorumIndex(s, self, size);
    if s.commitIndex < k <= |s.log| && s.log[k - 1].term == s.term then s.(commitIndex := k) else s
  }

  function Progress(s: Server, p: nat, req: AppendReq): (r: Server) {
    if req.entries == [] then s
    else
      var m := req.prevIndex + |req.entries|;
      s.(peers := s.peers[p := Peer(m + 1, m)])
  }

  function BackUp(s: Server, p: nat, resp: AppendResp): (r: Server)
    requires p in s.peers
  {
    s.(peers := s.peers[p := s.peers[p].(nextIndex := Backup(s.log, resp))])
  }

  /** A response, processed by a leader still in the term of the request. */
  function HandleAppendResp(s: Server, self: nat, size: nat, p: nat, req: AppendReq, resp: AppendResp): (r: Server)
    requires size > 0 && p in s.peers
  {
    if resp.success then AdvanceCommit(Progress(s, p, req), self, size) else BackUp(s, p, resp)
  }
}
