/**
 * The cluster as a transition system: numbered servers and a growing set of messages, any of
 * which may be lost, delayed, reordered or delivered twice. History variables record elections,
 * the log each leader built, granted votes, acknowledgements, commits and applied entries;
 * no handler reads them.
 */
module RaftSystem {
  import opened Options
  import opened DocumentFsm
  import opened RaftServer

  datatype Message =
    | AskVote(from: nat, to: nat, vote: VoteReq)
    | ReplyVote(from: nat, to: nat, vote: VoteReq, voted: VoteResp)
    | AskAppend(from: nat, to: nat, append: AppendReq)
    | ReplyAppend(from: nat, to: nat, append: AppendReq, appended: AppendResp)

  /** A won election: the winner, its log then, and each supporter's log when it voted. */
  datatype Election = Election(leader: nat, log: Log, voters: map<nat, Log>)

  /** A vote granted while the term had no leader, with the voter's log at that moment. */
  datatype Vote = Vote(candidate: nat, req: VoteReq, log: Log)

  datatype Key = Key(server: nat, term: nat)

  datatype Commit = Commit(term: nat, index: nat)

  datatype Sys = Sys(
    servers: seq<Server>,
    messages: set<Message>,
    elections: map<nat, Election>,
    history: map<nat, Log>,
    votes: map<Key, Vote>,
    acks: map<Key, nat>,
    commits: set<Commit>,
    applied: set<Entry>)

  ghost predicate Init(sys: Sys) {
    && |sys.servers| > 0
    && (forall s :: 0 <= s < |sys.servers| ==> sys.servers[s] == Server(0, None, [], Follower, 0, 0, map[]))
    && sys.messages == {} && sys.elections == map[] && sys.history == map[] && sys.votes == map[]
    && sys.acks == map[] && sys.commits == {} && sys.applied == {}
  }

  function Put(sys: Sys, s: nat, server: Server): (r: Sys)
    requires s < |sys.servers|
  {
    sys.(servers := sys.servers[s := server])
  }

  function Send(sys: Sys, ms: set<Message>): (r: Sys) {
    sys.(messages := sys.messages + ms)
  }

  predicate IsQuorum(q: set<nat>, size: nat) {
    (forall v :: v in q ==> v < size) && 2 * |q| > size
  }

  // ------------------------------------------------------------ history bookkeeping

  function RecordAck(sys: Sys, s: nat, term: nat, index: nat): (r: Sys) {
    var m := if Key(s, term) in sys.acks && sys.acks[Key(s, term)] > index then sys.acks[Key(s, term)] else index;
    sys.(acks := sys.acks[Key(s, term) := m])
  }

  function RecordVote(sys: Sys, v: nat, req: VoteReq): (r: Sys)
    requires v < |sys.servers|
  {
    if req.term in sys.elections || Key(v, req.term) in sys.votes then sys
    else sys.(votes := sys.votes[Key(v, req.term) := Vote(req.candidate, req, sys.servers[v].log)])
  }

  function RecordElection(sys: Sys, s: nat, q: set<nat>): (r: Sys)
    requires s < |sys.servers|
  {
    var sv := sys.servers[s];
    var voters := map v | v in q ::
      if v == s || Key(v, sv.term) !in sys.votes then sv.log else sys.votes[Key(v, sv.term)].log;
    sys.(elections := sys.elections[sv.term := Election(s, sv.log, voters)],
         history := sys.history[sv.term := sv.log])
  }

  /** A leader that moved its commit index has committed by counting. */
  function RecordCommit(sys: Sys, before: Server, after: Server): (r: Sys) {
    if after.commitIndex > before.commitIndex
    then sys.(commits := sys.commits + {Commit(after.term, after.commitIndex)})
    else sys
  }

  // ------------------------------------------------------------ the steps

  /** Election timeout: next term, vote for oneself, ask everyone else. */
  ghost predicate Timeout(sys: Sys, sys': Sys, s: nat) {
    && s < |sys.servers|
    && var sv := StartElection(sys.servers[s], s);
       sys' == Send(Put(sys, s, sv),
                    set p | p in Others(s, |sys.servers|) :: AskVote(s, p, ElectionRequest(sv, s)))
  }

  ghost predicate HandleVoteStep(sys: Sys, sys': Sys, m: Message) {
    && m in sys.messages && m.AskVote? && m.to < |sys.servers|
    && var r := HandleVote(sys.servers[m.to], m.vote);
       var sys1 := Put(sys, m.to, r.server);
       sys' == Send(if r.resp.granted then RecordVote(sys1, m.to, m.vote) else sys1,
                    {ReplyVote(m.to, m.from, m.vote, r.resp)})
  }

  /** A candidate hears of a later term. */
  ghost predicate VoteReplyStep(sys: Sys, sys': Sys, m: Message) {
    && m in sys.messages && m.ReplyVote? && m.to < |sys.servers|
    && sys.servers[m.to].role.Candidate? && m.voted.term > sys.servers[m.to].term
    && sys' == Put(sys, m.to, StepDown(sys.servers[m.to], m.voted.term))
  }

  /** The votes of this election, its own included, make a majority. */
  ghost predicate WonBy(sys: Sys, s: nat, q: set<nat>) {
    && s < |sys.servers| && sys.servers[s].role.Candidate?
    && s in q && IsQuorum(q, |sys.servers|)
    && forall v :: v in q && v != s ==>
         exists m :: m in sys.messages && GrantedBy(m, v, s, sys.servers[s].term)
  }

  predicate GrantedBy(m: Message, v: nat, candidate: nat, term: nat) {
    m.ReplyVote? && m.from == v && m.to == candidate && m.vote.term == term && m.voted.granted
  }

  ghost predicate Win(sys: Sys, sys': Sys, s: nat, q: set<nat>) {
    && WonBy(sys, s, q)
    && var sv := sys.servers[s];
       sys' == RecordAck(RecordElection(Put(sys, s, BecomeLeader(sv, s, |sys.servers|)), s, q), s, sv.term, |sv.log|)
  }

  /** A client command or the no-op of a new leader. */
  ghost predicate LeaderAppend(sys: Sys, sys': Sys, s: nat, data: Option<Submission>) {
    && s < |sys.servers| && sys.servers[s].role.Leader?
    && var sv := AppendCommand(sys.servers[s], data);
       sys' == RecordAck(Put(sys, s, sv).(history := sys.history[sv.term := sv.log]), s, sv.term, |sv.log|)
  }

  ghost predicate SendAppend(sys: Sys, sys': Sys, s: nat, p: nat) {
    && s < |sys.servers| && sys.servers[s].role.Leader? && p in sys.servers[s].peers
    && sys.servers[s].peers[p].nextIndex >= 1
    && sys' == Send(sys, {AskAppend(s, p, BuildAppend(sys.servers[s], s, sys.servers[s].peers[p]))})
  }

  ghost predicate HandleAppendStep(sys: Sys, sys': Sys, m: Message) {
    && m in sys.messages && m.AskAppend? && m.to < |sys.servers|
    && var r := HandleAppend(sys.servers[m.to], m.append);
       var sys1 := Put(sys, m.to, r.server);
       sys' == Send(if r.resp.success
                    then RecordAck(sys1, m.to, m.append.term, m.append.prevIndex + |m.append.entries|)
                    else sys1,
                    {ReplyAppend(m.to, m.from, m.append, r.resp)})
  }

  /** A response from a later term, whatever the receiver is by now. */
  ghost predicate AppendReplyDeposes(sys: Sys, sys': Sys, m: Message) {
    && m in sys.messages && m.ReplyAppend? && m.to < |sys.servers| && m.appended.term > sys.servers[m.to].term
    && sys' == Put(sys, m.to, StepDown(sys.servers[m.to], m.appended.term))
  }

  /** Any other response, processed while still leader in the term of the request. */
  ghost predicate AppendReplyStep(sys: Sys, sys': Sys, m: Message) {
    && m in sys.messages && m.ReplyAppend? && m.to < |sys.servers| && m.from in sys.servers[m.to].peers
    && sys.servers[m.to].role.Leader? && sys.servers[m.to].term == m.append.term
    && m.appended.term <= sys.servers[m.to].term
    && var before := sys.servers[m.to];
       var after := HandleAppendResp(before, m.to, |sys.servers|, m.from, m.append, m.appended);
       sys' == RecordCommit(Put(sys, m.to, after), before, after)
  }

  ghost predicate ApplyStep(sys: Sys, sys': Sys, s: nat) {
    && s < |sys.servers|
    && var sv := sys.servers[s];
       && sv.lastApplied < sv.commitIndex && sv.lastApplied < |sv.log|
       && sys' == Put(sys, s, sv.(lastApplied := sv.lastApplied + 1))
                  .(applied := sys.applied + {sv.log[sv.lastApplied]})
  }

  ghost predicate Crash(sys: Sys, sys': Sys, s: nat) {
    s < |sys.servers| && sys' == Put(sys, s, Restarted(sys.servers[s]))
  }

  /** Some request, reply or timeout could be moving the server to `term`. */
  predicate Reachable(sys: Sys, s: nat, term: nat)
    requires s < |sys.servers|
  {
    || term == sys.servers[s].term + 1
    || (term > sys.servers[s].term && exists m :: m in sys.messages && TermOf(m) == term)
  }

  function TermOf(m: Message): nat {
    match m
    case AskVote(_, _, req) => req.term
    case ReplyVote(_, _, _, resp) => resp.term
    case AskAppend(_, _, req) => req.term
    case ReplyAppend(_, _, _, resp) => resp.term
  }

  /** A crash between persistState's two writes: the new term with the old vote. */
  ghost predicate CrashInPersist(sys: Sys, sys': Sys, s: nat, term: nat) {
    && s < |sys.servers| && Reachable(sys, s, term)
    && sys' == Put(sys, s, Restarted(sys.servers[s]).(term := term))
  }

  /** A crash after a step-down was persisted and before its handler granted, stored or answered. */
  ghost predicate CrashInHandler(sys: Sys, sys': Sys, m: Message) {
    && m in sys.messages && m.to < |sys.servers| && TermOf(m) >= sys.servers[m.to].term
    && var sv := sys.servers[m.to];
       sys' == Put(sys, m.to, Restarted(if m.AskAppend? then Submit(sv, TermOf(m)) else SeeTerm(sv, TermOf(m))))
  }

  /** A crash after a conflict was cut and before the new entries were stored. */
  ghost predicate CrashInAppend(sys: Sys, sys': Sys, m: Message, cut: nat) {
    && m in sys.messages && m.AskAppend? && m.to < |sys.servers|
    && var s1 := Submit(sys.servers[m.to], m.append.term);
       && m.append.term >= sys.servers[m.to].term
       && Matches(s1.log, m.append) && FirstConflict(s1.log, m.append, cut)
       && sys' == Put(sys, m.to, Restarted(s1.(log := s1.log[..cut])))
  }

  /** The entry after position `cut` is the first that disagrees with the request. */
  predicate FirstConflict(log: Log, req: AppendReq, cut: nat) {
    && req.prevIndex <= cut < req.prevIndex + |req.entries| && cut < |log|
    && log[cut].term != req.entries[cut - req.prevIndex].term
    && forall i :: req.prevIndex <= i < cut ==> log[i].term == req.entries[i - req.prevIndex].term
  }

  ghost predicate Next(sys: Sys, sys': Sys) {
    || (exists s :: Timeout(sys, sys', s))
    || (exists m :: HandleVoteStep(sys, sys', m))
    || (exists m :: VoteReplyStep(sys, sys', m))
    || (exists s, q :: Win(sys, sys', s, q))
    || (exists s, data :: LeaderAppend(sys, sys', s, data))
    || (exists s, p :: SendAppend(sys, sys', s, p))
    || (exists m :: HandleAppendStep(sys, sys', m))
    || (exists m :: AppendReplyDeposes(sys, sys', m))
    || (exists m :: AppendReplyStep(sys, sys', m))
    || (exists s :: ApplyStep(sys, sys', s))
    || (exists s :: Crash(sys, sys', s))
    || (exists s, term :: CrashInPersist(sys, sys', s, term))
    || (exists m :: CrashInHandler(sys, sys', m))
    || (exists m, cut :: CrashInAppend(sys, sys', m, cut))
  }

  ghost predicate IsExecution(run: seq<Sys>) {
    && |run| > 0 && Init(run[0])
    && forall i :: 0 <= i < |run| - 1 ==> Next(run[i], run[i + 1])
  }
}
