/**
 * Two runs of three servers. One elects, replicates, commits and applies an entry: what the safety
 * theorems speak about does happen. In the other a server votes twice in one term.
 */
module RaftExample {
  import opened Options
  import opened DocumentFsm
  import opened RaftServer
  import opened RaftSystem

  function Fresh(): Server {
    Server(0, None, [], Follower, 0, 0, map[])
  }

  function Begin(): Sys {
    Sys([Fresh(), Fresh(), Fresh()], {}, map[], map[], map[], map[], {}, {})
  }

  function Request(): VoteReq {
    VoteReq(1, 0, 0, 0)
  }

  /** What a stage of the run has to offer the next one. */
  ghost predicate Stage(sys: Sys, a: Server, b: Server, m: Message) {
    |sys.servers| == 3 && sys.servers[0] == a && sys.servers[1] == b && m in sys.messages
  }

  function Standing(): Server {
    Server(1, Some(0), [], Candidate, 0, 0, map[])
  }

  function Supporting(): Server {
    Server(1, Some(0), [], Follower, 0, 0, map[])
  }

  function Leading(): Server {
    Standing().(role := Leader, peers := FreshPeers(0, 3, 0))
  }

  function Command(data: Option<Submission>): Entry {
    Entry(1, 1, data)
  }

  function Appending(data: Option<Submission>): Server {
    Leading().(log := [Command(data)])
  }

  function Append(data: Option<Submission>): AppendReq {
    AppendReq(1, 0, 0, 0, [Command(data)], 0)
  }

  lemma Stands() returns (sys: Sys)
    ensures Timeout(Begin(), sys, 0)
    ensures Stage(sys, Standing(), Fresh(), AskVote(0, 1, Request()))
  {
    var sv := StartElection(Fresh(), 0);
    sys := Send(Put(Begin(), 0, sv), set p | p in Others(0, 3) :: AskVote(0, p, ElectionRequest(sv, 0)));
    assert 1 in Others(0, 3);
    assert AskVote(0, 1, ElectionRequest(sv, 0)) in sys.messages;
  }

  lemma Votes(sys: Sys) returns (sys': Sys)
    requires Stage(sys, Standing(), Fresh(), AskVote(0, 1, Request()))
    ensures HandleVoteStep(sys, sys', AskVote(0, 1, Request()))
    ensures Stage(sys', Standing(), Supporting(), ReplyVote(1, 0, Request(), VoteResp(1, true)))
  {
    var r := HandleVote(Fresh(), Request());
    assert r == Voted(Supporting(), VoteResp(1, true));
    sys' := Send(RecordVote(Put(sys, 1, r.server), 1, Request()), {ReplyVote(1, 0, Request(), r.resp)});
  }

  lemma Wins(sys: Sys) returns (sys': Sys)
    requires Stage(sys, Standing(), Supporting(), ReplyVote(1, 0, Request(), VoteResp(1, true)))
    ensures Win(sys, sys', 0, {0, 1})
    ensures |sys'.servers| == 3 && sys'.servers[0] == Leading() && sys'.servers[1] == Supporting()
  {
    var m := ReplyVote(1, 0, Request(), VoteResp(1, true));
    assert m in sys.messages && GrantedBy(m, 1, 0, 1);
    assert WonBy(sys, 0, {0, 1});
    sys' := RecordAck(RecordElection(Put(sys, 0, BecomeLeader(sys.servers[0], 0, 3)), 0, {0, 1}), 0, 1, 0);
  }

  lemma Proposes(sys: Sys, data: Option<Submission>) returns (sys': Sys)
    requires |sys.servers| == 3 && sys.servers[0] == Leading() && sys.servers[1] == Supporting()
    ensures LeaderAppend(sys, sys', 0, data)
    ensures |sys'.servers| == 3 && sys'.servers[0] == Appending(data) && sys'.servers[1] == Supporting()
  {
    var sv := AppendCommand(Leading(), data);
    assert sv == Appending(data);
    sys' := RecordAck(Put(sys, 0, sv).(history := sys.history[sv.term := sv.log]), 0, sv.term, |sv.log|);
  }

  lemma Sends(sys: Sys, data: Option<Submission>) returns (sys': Sys)
    requires |sys.servers| == 3 && sys.servers[0] == Appending(data) && sys.servers[1] == Supporting()
    ensures SendAppend(sys, sys', 0, 1)
    ensures Stage(sys', Appending(data), Supporting(), AskAppend(0, 1, Append(data)))
  {
    assert 1 in Others(0, 3);
    var sv := Appending(data);
    assert sv.peers[1] == Peer(1, 0);
    assert sv.log[0..] == [Command(data)];
    assert BuildAppend(sv, 0, sv.peers[1]) == Append(data);
    sys' := Send(sys, {AskAppend(0, 1, Append(data))});
  }

  lemma Accepts(sys: Sys, data: Option<Submission>) returns (sys': Sys)
    requires Stage(sys, Appending(data), Supporting(), AskAppend(0, 1, Append(data)))
    ensures HandleAppendStep(sys, sys', AskAppend(0, 1, Append(data)))
    ensures Stage(sys', Appending(data), Holding(data), ReplyAppend(1, 0, Append(data), AppendResp(1, true, 0, 0)))
  {
    var r := HandleAppend(Supporting(), Append(data));
    assert MergeEntries([], 0, [Command(data)]) == [Command(data)];
    assert r == Appended(Holding(data), AppendResp(1, true, 0, 0));
    sys' := Send(RecordAck(Put(sys, 1, r.server), 1, 1, 1), {ReplyAppend(1, 0, Append(data), r.resp)});
  }

  lemma MajorityHasIt(sv: Server)
    requires sv.log != [] && |sv.log| == 1 && sv.peers == FreshPeers(0, 3, 0)[1 := Peer(2, 1)]
    ensures QuorumIndex(sv, 0, 3) == 1
  {
    assert 2 in Others(0, 3);
    assert MatchIndexes(sv, 0, 3) == [1, 1, 0];
    assert SortDesc([0]) == [0];
    assert [1, 0][1..] == [0] && [1, 1, 0][1..] == [1, 0];
    assert SortDesc([1, 0]) == [1, 0];
    assert SortDesc([1, 1, 0]) == [1, 1, 0];
  }

  /** The leader once the follower has answered. */
  function Committing(data: Option<Submission>): Server {
    Appending(data).(peers := FreshPeers(0, 3, 0)[1 := Peer(2, 1)], commitIndex := 1)
  }

  function Holding(data: Option<Submission>): Server {
    Supporting().(log := [Command(data)])
  }

  lemma Commits(sys: Sys, data: Option<Submission>, b: Server) returns (sys': Sys)
    requires Stage(sys, Appending(data), b, ReplyAppend(1, 0, Append(data), AppendResp(1, true, 0, 0)))
    ensures AppendReplyStep(sys, sys', ReplyAppend(1, 0, Append(data), AppendResp(1, true, 0, 0)))
    ensures |sys'.servers| == 3 && sys'.servers[0] == Committing(data) && sys'.servers[1] == b
  {
    hide QuorumIndex;
    var before := Appending(data);
    assert 1 in Others(0, 3);
    var sv := Progress(before, 1, Append(data));
    MajorityHasIt(sv);
    var after := AdvanceCommit(sv, 0, 3);
    sys' := RecordCommit(Put(sys, 0, after), before, after);
  }

  lemma Applies(sys: Sys, data: Option<Submission>) returns (sys': Sys)
    requires |sys.servers| == 3 && sys.servers[0] == Committing(data)
    ensures ApplyStep(sys, sys', 0) && Command(data) in sys'.applied
    ensures |sys'.servers| == 3 && sys'.servers[0] == Committing(data).(lastApplied := 1)
    ensures sys'.servers[1] == sys.servers[1]
  {
    var sv := sys.servers[0];
    sys' := Put(sys, 0, sv.(lastApplied := 1)).(applied := sys.applied + {sv.log[0]});
  }

  /** The leader's next request has nothing to add but its commit index. */
  function Notice(): AppendReq {
    AppendReq(1, 0, 1, 1, [], 1)
  }

  lemma Tells(sys: Sys, data: Option<Submission>) returns (sys': Sys)
    requires |sys.servers| == 3 && sys.servers[0] == Committing(data).(lastApplied := 1)
    requires sys.servers[1] == Holding(data)
    ensures SendAppend(sys, sys', 0, 1) && sys'.applied == sys.applied
    ensures Stage(sys', Committing(data).(lastApplied := 1), Holding(data), AskAppend(0, 1, Notice()))
  {
    var sv := Committing(data).(lastApplied := 1);
    assert sv.peers[1] == Peer(2, 1);
    assert sv.log[1..] == [];
    assert BuildAppend(sv, 0, sv.peers[1]) == Notice();
    sys' := Send(sys, {AskAppend(0, 1, Notice())});
  }

  lemma Learns(sys: Sys, data: Option<Submission>, a: Server) returns (sys': Sys)
    requires Stage(sys, a, Holding(data), AskAppend(0, 1, Notice()))
    ensures HandleAppendStep(sys, sys', AskAppend(0, 1, Notice()))
    ensures |sys'.servers| == 3 && sys'.servers[1] == Holding(data).(commitIndex := 1)
    ensures sys'.servers[0] == a && sys'.applied == sys.applied
  {
    var r := HandleAppend(Holding(data), Notice());
    assert r == Appended(Holding(data).(commitIndex := 1), AppendResp(1, true, 0, 0));
    sys' := Send(RecordAck(Put(sys, 1, r.server), 1, 1, 1), {ReplyAppend(1, 0, Notice(), r.resp)});
  }

  lemma FollowerApplies(sys: Sys, data: Option<Submission>) returns (sys': Sys)
    requires |sys.servers| == 3 && sys.servers[1] == Holding(data).(commitIndex := 1)
    ensures ApplyStep(sys, sys', 1)
    ensures |sys'.servers| == 3 && sys'.servers[1] == Holding(data).(commitIndex := 1, lastApplied := 1)
    ensures sys'.servers[0] == sys.servers[0] && sys.applied <= sys'.applied
  {
    var sv := sys.servers[1];
    sys' := Put(sys, 1, sv.(lastApplied := 1)).(applied := sys.applied + {sv.log[0]});
  }

  lemma ByServer(sys: Sys, sys': Sys, s: nat)
    requires Timeout(sys, sys', s) || ApplyStep(sys, sys', s)
    ensures Next(sys, sys')
  {
    hide Timeout, HandleVoteStep, VoteReplyStep, Win, LeaderAppend, SendAppend, HandleAppendStep,
         AppendReplyDeposes, AppendReplyStep, ApplyStep, Crash, CrashInPersist, CrashInHandler, CrashInAppend;
  }

  lemma ByMessage(sys: Sys, sys': Sys, m: Message)
    requires HandleVoteStep(sys, sys', m) || HandleAppendStep(sys, sys', m) || AppendReplyStep(sys, sys', m)
    ensures Next(sys, sys')
  {
    hide Timeout, HandleVoteStep, VoteReplyStep, Win, LeaderAppend, SendAppend, HandleAppendStep,
         AppendReplyDeposes, AppendReplyStep, ApplyStep, Crash, CrashInPersist, CrashInHandler, CrashInAppend;
  }

  lemma ByWin(sys: Sys, sys': Sys, s: nat, q: set<nat>)
    requires Win(sys, sys', s, q)
    ensures Next(sys, sys')
  {
    hide Timeout, HandleVoteStep, VoteReplyStep, Win, LeaderAppend, SendAppend, HandleAppendStep,
         AppendReplyDeposes, AppendReplyStep, ApplyStep, Crash, CrashInPersist, CrashInHandler, CrashInAppend;
  }

  lemma ByAppend(sys: Sys, sys': Sys, s: nat, data: Option<Submission>)
    requires LeaderAppend(sys, sys', s, data)
    ensures Next(sys, sys')
  {
    hide Timeout, HandleVoteStep, VoteReplyStep, Win, LeaderAppend, SendAppend, HandleAppendStep,
         AppendReplyDeposes, AppendReplyStep, ApplyStep, Crash, CrashInPersist, CrashInHandler, CrashInAppend;
  }

  lemma BySend(sys: Sys, sys': Sys, s: nat, p: nat)
    requires SendAppend(sys, sys', s, p)
    ensures Next(sys, sys')
  {
    hide Timeout, HandleVoteStep, VoteReplyStep, Win, LeaderAppend, SendAppend, HandleAppendStep,
         AppendReplyDeposes, AppendReplyStep, ApplyStep, Crash, CrashInPersist, CrashInHandler, CrashInAppend;
  }

  lemma ElectsAndReplicates(data: Option<Submission>) returns (run: seq<Sys>)
    ensures IsExecution(run) && |run| == 7
    ensures Stage(run[6], Appending(data), Holding(data), ReplyAppend(1, 0, Append(data), AppendResp(1, true, 0, 0)))
  {
    hide Timeout, HandleVoteStep, VoteReplyStep, Win, LeaderAppend, SendAppend, HandleAppendStep,
         AppendReplyDeposes, AppendReplyStep, ApplyStep, Crash, CrashInPersist, CrashInHandler, CrashInAppend, Stage;
    var x1 := Stands();
    ByServer(Begin(), x1, 0);
    var x2 := Votes(x1);
    ByMessage(x1, x2, AskVote(0, 1, Request()));
    var x3 := Wins(x2);
    ByWin(x2, x3, 0, {0, 1});
    var x4 := Proposes(x3, data);
    ByAppend(x3, x4, 0, data);
    var x5 := Sends(x4, data);
    BySend(x4, x5, 0, 1);
    var x6 := Accepts(x5, data);
    ByMessage(x5, x6, AskAppend(0, 1, Append(data)));
    hide Next;
    run := [Begin(), x1, x2, x3, x4, x5, x6];
  }

  lemma OneMore(run: seq<Sys>, sys: Sys)
    requires IsExecution(run) && Next(run[|run| - 1], sys)
    ensures IsExecution(run + [sys])
  {
    hide Next;
  }

  /** Any command can be committed in a cluster of three, and applied by its leader and by a follower. */
  lemma CommandGetsApplied(data: Option<Submission>) returns (run: seq<Sys>)
    ensures IsExecution(run)
    ensures var last := run[|run| - 1];
            && |last.servers| == 3 && last.servers[0].role.Leader? && last.servers[1].role.Follower?
            && last.servers[0].log == last.servers[1].log == [Command(data)]
            && last.servers[0].lastApplied == last.servers[1].lastApplied == 1 && Command(data) in last.applied
  {
    hide Timeout, HandleVoteStep, VoteReplyStep, Win, LeaderAppend, SendAppend, HandleAppendStep, AppendReplyDeposes,
         AppendReplyStep, ApplyStep, Crash, CrashInPersist, CrashInHandler, CrashInAppend, Stage, Next, IsExecution;
    run := ElectsAndReplicates(data);
    var x7 := Commits(run[6], data, Holding(data));
    ByMessage(run[6], x7, ReplyAppend(1, 0, Append(data), AppendResp(1, true, 0, 0)));
    OneMore(run, x7);
    var x8 := Applies(x7, data);
    ByServer(x7, x8, 0);
    OneMore(run + [x7], x8);
    var x9 := Tells(x8, data);
    BySend(x8, x9, 0, 1);
    OneMore(run + [x7] + [x8], x9);
    var x10 := Learns(x9, data, Committing(data).(lastApplied := 1));
    ByMessage(x9, x10, AskAppend(0, 1, Notice()));
    OneMore(run + [x7] + [x8] + [x9], x10);
    var x11 := FollowerApplies(x10, data);
    ByServer(x10, x11, 1);
    OneMore(run + [x7] + [x8] + [x9] + [x10], x11);
    run := run + [x7] + [x8] + [x9] + [x10] + [x11];
  }

  // ------------------------------------------------------------ two votes in one term

  /** Servers 0, 1 and 2, with server 0's vote request to server 1 still on its way. */
  ghost predicate Trio(sys: Sys, a: Server, b: Server, c: Server) {
    && |sys.servers| == 3 && sys.servers[0] == a && sys.servers[1] == b && sys.servers[2] == c
    && AskVote(0, 1, Request()) in sys.messages
  }

  function Rival(): Server {
    Server(1, Some(1), [], Candidate, 0, 0, map[])
  }

  function Heartbeat(): AppendReq {
    AppendReq(1, 0, 0, 0, [], 0)
  }

  lemma FirstStands() returns (sys: Sys)
    ensures Timeout(Begin(), sys, 0) && Trio(sys, Standing(), Fresh(), Fresh())
    ensures AskVote(0, 2, Request()) in sys.messages
  {
    var sv := StartElection(Fresh(), 0);
    sys := Send(Put(Begin(), 0, sv), set p | p in Others(0, 3) :: AskVote(0, p, ElectionRequest(sv, 0)));
    assert 1 in Others(0, 3) && 2 in Others(0, 3);
    assert AskVote(0, 1, ElectionRequest(sv, 0)) in sys.messages
           && AskVote(0, 2, ElectionRequest(sv, 0)) in sys.messages;
  }

  lemma RivalStands(sys: Sys) returns (sys': Sys)
    requires Trio(sys, Standing(), Fresh(), Fresh()) && AskVote(0, 2, Request()) in sys.messages
    ensures Timeout(sys, sys', 1) && Trio(sys', Standing(), Rival(), Fresh())
    ensures AskVote(0, 2, Request()) in sys'.messages
  {
    var sv := StartElection(Fresh(), 1);
    sys' := Send(Put(sys, 1, sv), set p | p in Others(1, 3) :: AskVote(1, p, ElectionRequest(sv, 1)));
  }

  lemma ThirdVotes(sys: Sys) returns (sys': Sys)
    requires Trio(sys, Standing(), Rival(), Fresh()) && AskVote(0, 2, Request()) in sys.messages
    ensures HandleVoteStep(sys, sys', AskVote(0, 2, Request())) && Trio(sys', Standing(), Rival(), Supporting())
    ensures ReplyVote(2, 0, Request(), VoteResp(1, true)) in sys'.messages
  {
    var r := HandleVote(Fresh(), Request());
    assert r == Voted(Supporting(), VoteResp(1, true));
    sys' := Send(RecordVote(Put(sys, 2, r.server), 2, Request()), {ReplyVote(2, 0, Request(), r.resp)});
  }

  lemma FirstWins(sys: Sys) returns (sys': Sys)
    requires Trio(sys, Standing(), Rival(), Supporting())
             && ReplyVote(2, 0, Request(), VoteResp(1, true)) in sys.messages
    ensures Win(sys, sys', 0, {0, 2}) && Trio(sys', Leading(), Rival(), Supporting())
  {
    var m := ReplyVote(2, 0, Request(), VoteResp(1, true));
    assert m in sys.messages && GrantedBy(m, 2, 0, 1);
    assert WonBy(sys, 0, {0, 2});
    sys' := RecordAck(RecordElection(Put(sys, 0, BecomeLeader(sys.servers[0], 0, 3)), 0, {0, 2}), 0, 1, 0);
  }

  lemma FirstLeads(sys: Sys) returns (sys': Sys)
    requires Trio(sys, Leading(), Rival(), Supporting())
    ensures SendAppend(sys, sys', 0, 1) && Trio(sys', Leading(), Rival(), Supporting())
    ensures AskAppend(0, 1, Heartbeat()) in sys'.messages
  {
    assert 1 in Others(0, 3);
    var sv := Leading();
    assert sv.peers[1] == Peer(1, 0);
    assert sv.log[0..] == [];
    assert BuildAppend(sv, 0, sv.peers[1]) == Heartbeat();
    sys' := Send(sys, {AskAppend(0, 1, Heartbeat())});
  }

  lemma RivalYields(sys: Sys) returns (sys': Sys)
    requires Trio(sys, Leading(), Rival(), Supporting()) && AskAppend(0, 1, Heartbeat()) in sys.messages
    ensures HandleAppendStep(sys, sys', AskAppend(0, 1, Heartbeat()))
    ensures Trio(sys', Leading(), Supporting().(votedFor := None), Supporting())
  {
    var r := HandleAppend(Rival(), Heartbeat());
    assert r == Appended(Supporting().(votedFor := None), AppendResp(1, true, 0, 0));
    sys' := Send(RecordAck(Put(sys, 1, r.server), 1, 1, 0), {ReplyAppend(1, 0, Heartbeat(), r.resp)});
  }

  lemma RivalVotesAgain(sys: Sys) returns (sys': Sys)
    requires Trio(sys, Leading(), Supporting().(votedFor := None), Supporting())
    ensures HandleVoteStep(sys, sys', AskVote(0, 1, Request())) && Trio(sys', Leading(), Supporting(), Supporting())
  {
    var r := HandleVote(Supporting().(votedFor := None), Request());
    assert r == Voted(Supporting(), VoteResp(1, true));
    sys' := Send(RecordVote(Put(sys, 1, r.server), 1, Request()), {ReplyVote(1, 0, Request(), r.resp)});
  }

  /** One vote per term is false: server 1 votes for itself and then for server 0, both in term 1. */
  lemma TwoVotesInOneTerm() returns (run: seq<Sys>)
    ensures IsExecution(run) && |run| == 8 && |run[2].servers| == 3 && |run[7].servers| == 3
    ensures run[2].servers[1].term == 1 && run[2].servers[1].votedFor == Some(1)
    ensures run[7].servers[1].term == 1 && run[7].servers[1].votedFor == Some(0)
  {
    hide Timeout, HandleVoteStep, VoteReplyStep, Win, LeaderAppend, SendAppend, HandleAppendStep,
         AppendReplyDeposes, AppendReplyStep, ApplyStep, Crash, CrashInPersist, CrashInHandler, CrashInAppend;
    var x1 := FirstStands();
    ByServer(Begin(), x1, 0);
    var x2 := RivalStands(x1);
    ByServer(x1, x2, 1);
    var x3 := ThirdVotes(x2);
    ByMessage(x2, x3, AskVote(0, 2, Request()));
    var x4 := FirstWins(x3);
    ByWin(x3, x4, 0, {0, 2});
    var x5 := FirstLeads(x4);
    BySend(x4, x5, 0, 1);
    var x6 := RivalYields(x5);
    ByMessage(x5, x6, AskAppend(0, 1, Heartbeat()));
    var x7 := RivalVotesAgain(x6);
    ByMessage(x6, x7, AskVote(0, 1, Request()));
    hide Next;
    run := [Begin(), x1, x2, x3, x4, x5, x6, x7];
  }
}
