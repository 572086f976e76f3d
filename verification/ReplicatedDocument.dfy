/** The document on top of the cluster: each server feeds its state machine what it applies. */
module ReplicatedDocument {
  import opened Options
  import opened Sequences
  import opened DocumentFsm
  import opened RaftServer
  import opened RaftSystem
  import opened RaftInvariant
  import RaftSteps
  import opened RaftTransitions
  import opened RaftRuns

  // ------------------------------------------------------------ commands in a log

  predicate SoundEntry(e: Entry) {
    e.data.Some? ==> Sound(e.data.value)
  }

  predicate SoundLog(log: Log) {
    forall i :: 0 <= i < |log| ==> SoundEntry(log[i])
  }

  /** The submissions of a log; no-ops carry none. */
  function Commands(log: Log): (r: seq<Submission>)
    ensures SoundLog(log) ==> Committable(r)
  {
    if log == [] then []
    else
      var n := |log| - 1;
      Commands(log[..n]) + (if log[n].data.Some? then [log[n].data.value] else [])
  }

  lemma CommandsSnoc(log: Log, i: nat)
    requires i < |log|
    ensures Commands(log[..i + 1]) == Commands(log[..i]) + if log[i].data.Some? then [log[i].data.value] else []
  {
    TakeTake(log, i, i + 1);
  }

  lemma {:induction false} CommandsPrefix(x: Log, y: Log) returns (rest: seq<Submission>)
    requires x <= y && SoundLog(y)
    ensures Committable(Commands(x)) && Committable(rest) && Commands(y) == Commands(x) + rest
    decreases |y|
  {
    if |x| == |y| {
      assert x == y;
      rest := [];
    } else {
      var n := |y| - 1;
      var front := CommandsPrefix(x, y[..n]);
      rest := front + if y[n].data.Some? then [y[n].data.value] else [];
      assert SoundEntry(y[n]);
      Assoc(Commands(x), front, if y[n].data.Some? then [y[n].data.value] else []);
    }
  }

  // ------------------------------------------------------------ only sound submissions are proposed

  /** What the servers hand to the cluster passes validation. */
  ghost predicate SoundStep(sys: Sys, sys': Sys) {
    forall s, data :: LeaderAppend(sys, sys', s, data) && data.Some? ==> Sound(data.value)
  }

  ghost predicate SoundRun(run: seq<Sys>) {
    IsExecution(run) && forall i :: 0 <= i < |run| - 1 ==> SoundStep(run[i], run[i + 1])
  }

  ghost predicate SoundHistory(h: LeaderLogs) {
    forall t :: t in h ==> SoundLog(h[t])
  }

  lemma GoodLogSound(h: LeaderLogs, log: Log)
    requires SoundHistory(h) && GoodLog(h, log)
    ensures SoundLog(log)
  {
    forall i | 0 <= i < |log|
      ensures SoundEntry(log[i])
    {
      assert EntryOk(h, log, i);
      assert log[i] == h[log[i].term][i];
    }
  }

  lemma WinSound(sys: Sys, sys': Sys, s: nat, q: set<nat>)
    requires Inv(sys) && SoundHistory(sys.history) && Win(sys, sys', s, q)
    ensures SoundHistory(sys'.history)
  {
    hide ServersInv, AcksInv, VotesInv, ElectionsInv, MessagesInv, AppliedInv, CommitsInv, HistoryInv, Retains, GoodLog,
         CommittedPrefix;
    RaftSteps.ServerFacts(sys, s);
    GoodLogSound(sys.history, sys.servers[s].log);
    assert sys'.history == sys.history[sys.servers[s].term := sys.servers[s].log];
  }

  lemma LeaderAppendSound(sys: Sys, sys': Sys, s: nat, data: Option<Submission>)
    requires Inv(sys) && SoundHistory(sys.history) && LeaderAppend(sys, sys', s, data)
             && (data.Some? ==> Sound(data.value))
    ensures SoundHistory(sys'.history)
  {
    hide ServersInv, AcksInv, VotesInv, ElectionsInv, MessagesInv, AppliedInv, CommitsInv, HistoryInv;
    LeaderLog(sys, s);
  }

  lemma NextSound(sys: Sys, sys': Sys)
    requires Inv(sys) && SoundHistory(sys.history) && Next(sys, sys') && SoundStep(sys, sys')
    ensures SoundHistory(sys'.history)
  {
    hide Inv, SoundHistory, Win, LeaderAppend;
    if s, q :| Win(sys, sys', s, q) {
      WinSound(sys, sys', s, q);
    } else if s, data :| LeaderAppend(sys, sys', s, data) {
      LeaderAppendSound(sys, sys', s, data);
    } else {
      OtherStepsKeepHistory(sys, sys');
    }
  }

  lemma {:induction false} RunSound(run: seq<Sys>, i: nat)
    requires SoundRun(run) && i < |run|
    ensures SoundHistory(run[i].history)
  {
    hide Inv, Next, SoundHistory, SoundStep;
    if i == 0 {
      assert run[0].history == map[];
      EmptySound();
    } else {
      RunSound(run, i - 1);
      ExecutionInv(run, i - 1);
      NextSound(run[i - 1], run[i - 1 + 1]);
    }
  }

  lemma EmptySound()
    ensures SoundHistory(map[])
  {
  }

  lemma LogSound(run: seq<Sys>, i: nat, s: nat)
    requires SoundRun(run) && i < |run| && s < |run[i].servers|
    ensures SoundLog(run[i].servers[s].log)
    ensures run[i].servers[s].lastApplied <= run[i].servers[s].commitIndex <= |run[i].servers[s].log|
  {
    hide SoundHistory, SoundLog, ServersInv, AcksInv, VotesInv, ElectionsInv, MessagesInv, AppliedInv, CommitsInv,
         HistoryInv, Retains, GoodLog, CommittedPrefix, Next, Init, SoundStep;
    RunSound(run, i);
    ExecutionInv(run, i);
    RaftSteps.ServerFacts(run[i], s);
    GoodLogSound(run[i].history, run[i].servers[s].log);
  }

  // ------------------------------------------------------------ a server's document over a run

  function Feed(d: Doc, e: Entry): (r: Doc)
    requires WellFormed(d) && SoundEntry(e)
    ensures WellFormed(r)
  {
    if e.data.Some? then ApplyEntry(d, e.data.value).doc else d
  }

  /**
   * The document a server has after `i` steps: one entry further when it applied one, fresh
   * again when it restarted, unchanged otherwise.
   */
  ghost function DocumentAt(run: seq<Sys>, i: nat, s: nat, text: string): (d: Doc)
    requires SoundRun(run) && i < |run| && s < |run[i].servers|
    ensures WellFormed(d)
  {
    if i == 0 then NewDoc(text)
    else
      LogSound(run, i, s);
      RunIsLater(run, i - 1, i);
      var was, now := run[i - 1].servers[s], run[i].servers[s];
      if now.lastApplied == was.lastApplied then DocumentAt(run, i - 1, s, text)
      else if now.lastApplied == was.lastApplied + 1
      then Feed(DocumentAt(run, i - 1, s, text), now.log[was.lastApplied])
      else NewDoc(text)
  }

  /** The document computed in one go from the applied part of the log. */
  ghost function Replica(sv: Server, text: string): (d: Doc)
    requires sv.lastApplied <= |sv.log| && SoundLog(sv.log)
  {
    ApplyLog(NewDoc(text), Commands(sv.log[..sv.lastApplied]))
  }

  // ------------------------------------------------------------ how lastApplied moves

  ghost predicate AppliedMoves(sys: Sys, sys': Sys, s: nat)
    requires s < |sys.servers| && s < |sys'.servers|
  {
    var was, now := sys.servers[s].lastApplied, sys'.servers[s].lastApplied;
    now == was || now == was + 1 || now == 0
  }

  lemma PutApplied(sys: Sys, sys': Sys, r: nat, sv: Server, s: nat)
    requires r < |sys.servers| && sys'.servers == Put(sys, r, sv).servers && s < |sys.servers|
    requires var was := sys.servers[r].lastApplied;
             sv.lastApplied == was || sv.lastApplied == was + 1 || sv.lastApplied == 0
    ensures AppliedMoves(sys, sys', s)
  {
  }

  lemma VoteStepsMove(sys: Sys, sys': Sys, s: nat, m: Message)
    requires s < |sys.servers| && (HandleVoteStep(sys, sys', m) || VoteReplyStep(sys, sys', m))
    ensures s < |sys'.servers| && AppliedMoves(sys, sys', s)
  {
    PutApplied(sys, sys', m.to, sys'.servers[m.to], s);
  }

  lemma AppendStepsMove(sys: Sys, sys': Sys, s: nat, m: Message)
    requires s < |sys.servers| && HandleAppendStep(sys, sys', m)
    ensures s < |sys'.servers| && AppliedMoves(sys, sys', s)
  {
    hide MergeEntries, Matches, Refusal;
    PutApplied(sys, sys', m.to, sys'.servers[m.to], s);
  }

  lemma ReplyStepsMove(sys: Sys, sys': Sys, s: nat, m: Message)
    requires s < |sys.servers| && (AppendReplyDeposes(sys, sys', m) || AppendReplyStep(sys, sys', m))
    ensures s < |sys'.servers| && AppliedMoves(sys, sys', s)
  {
    hide QuorumIndex, Backup;
    PutApplied(sys, sys', m.to, sys'.servers[m.to], s);
  }

  lemma TimeoutMoves(sys: Sys, sys': Sys, s: nat, r: nat)
    requires s < |sys.servers| && Timeout(sys, sys', r)
    ensures s < |sys'.servers| && AppliedMoves(sys, sys', s)
  {
    hide Others, ElectionRequest;
    PutApplied(sys, sys', r, sys'.servers[r], s);
  }

  lemma SendMoves(sys: Sys, sys': Sys, s: nat, r: nat, p: nat)
    requires s < |sys.servers| && SendAppend(sys, sys', r, p)
    ensures s < |sys'.servers| && AppliedMoves(sys, sys', s)
  {
    hide BuildAppend;
  }

  lemma ServerStepsMove(sys: Sys, sys': Sys, s: nat, r: nat)
    requires s < |sys.servers|
    requires ApplyStep(sys, sys', r) || Crash(sys, sys', r) || (exists term :: CrashInPersist(sys, sys', r, term))
    ensures s < |sys'.servers| && AppliedMoves(sys, sys', s)
  {
    hide Reachable;
    PutApplied(sys, sys', r, sys'.servers[r], s);
  }

  lemma LeaderStepsMove(sys: Sys, sys': Sys, s: nat, r: nat)
    requires s < |sys.servers|
    requires (exists q :: Win(sys, sys', r, q)) || (exists data :: LeaderAppend(sys, sys', r, data))
    ensures s < |sys'.servers| && AppliedMoves(sys, sys', s)
  {
    hide IsQuorum, GrantedBy;
    PutApplied(sys, sys', r, sys'.servers[r], s);
  }

  lemma NextApplied(sys: Sys, sys': Sys, s: nat)
    requires Next(sys, sys') && s < |sys.servers|
    ensures s < |sys'.servers| && AppliedMoves(sys, sys', s)
  {
    hide Timeout, HandleVoteStep, VoteReplyStep, Win, LeaderAppend, SendAppend, HandleAppendStep,
         AppendReplyDeposes, AppendReplyStep, ApplyStep, Crash, CrashInPersist, CrashInHandler, CrashInAppend,
           AppliedMoves;
    if m :| HandleVoteStep(sys, sys', m) {
      VoteStepsMove(sys, sys', s, m);
    } else if m :| VoteReplyStep(sys, sys', m) {
      VoteStepsMove(sys, sys', s, m);
    } else if m :| HandleAppendStep(sys, sys', m) {
      AppendStepsMove(sys, sys', s, m);
    } else if m :| AppendReplyDeposes(sys, sys', m) {
      ReplyStepsMove(sys, sys', s, m);
    } else if m :| AppendReplyStep(sys, sys', m) {
      ReplyStepsMove(sys, sys', s, m);
    } else if m, cut :| CrashInAppend(sys, sys', m, cut) {
      CutMoves(sys, sys', s, m, cut);
    } else if m :| CrashInHandler(sys, sys', m) {
      HandlerCrashMoves(sys, sys', s, m);
    } else if r :| Timeout(sys, sys', r) {
      TimeoutMoves(sys, sys', s, r);
    } else if r, q :| Win(sys, sys', r, q) {
      LeaderStepsMove(sys, sys', s, r);
    } else if r, data :| LeaderAppend(sys, sys', r, data) {
      LeaderStepsMove(sys, sys', s, r);
    } else if r, p :| SendAppend(sys, sys', r, p) {
      SendMoves(sys, sys', s, r, p);
    } else if r :| ApplyStep(sys, sys', r) {
      ServerStepsMove(sys, sys', s, r);
    } else if r :| Crash(sys, sys', r) {
      ServerStepsMove(sys, sys', s, r);
    } else {
      var r, term :| CrashInPersist(sys, sys', r, term);
      ServerStepsMove(sys, sys', s, r);
    }
  }

  lemma HandlerCrashMoves(sys: Sys, sys': Sys, s: nat, m: Message)
    requires s < |sys.servers| && CrashInHandler(sys, sys', m)
    ensures s < |sys'.servers| && AppliedMoves(sys, sys', s)
  {
    hide Submit, SeeTerm;
    PutApplied(sys, sys', m.to, sys'.servers[m.to], s);
  }

  lemma CutMoves(sys: Sys, sys': Sys, s: nat, m: Message, cut: nat)
    requires s < |sys.servers| && CrashInAppend(sys, sys', m, cut)
    ensures s < |sys'.servers| && AppliedMoves(sys, sys', s)
  {
    hide Matches, FirstConflict, Submit;
    PutApplied(sys, sys', m.to, sys'.servers[m.to], s);
  }

  // ------------------------------------------------------------ one document

  lemma SharedPrefix(x: Log, y: Log, i: nat, j: nat, k: nat)
    requires i <= |x| && j <= |y| && (x[..i] <= y[..j] || y[..j] <= x[..i]) && k <= i && k <= j
    ensures x[..k] == y[..k]
  {
    assert x[..k] == x[..i][..k];
    assert y[..k] == y[..j][..k];
  }

  /** Whatever two servers have applied, at whatever moments, the shorter stretch starts the longer. */
  lemma AppliedAgree(run: seq<Sys>, i: nat, j: nat, s: nat, r: nat)
    requires SoundRun(run) && i < |run| && j < |run| && s < |run[i].servers| && r < |run[j].servers|
    requires run[i].servers[s].lastApplied <= run[j].servers[r].lastApplied
    ensures var a, b := run[i].servers[s], run[j].servers[r];
            && a.lastApplied <= |a.log| && b.lastApplied <= |b.log|
            && a.log[..a.lastApplied] == b.log[..a.lastApplied]
  {
    hide SoundRun, SoundLog;
    assert IsExecution(run) by { SoundIsExecution(run); }
    hide IsExecution;
    LogSound(run, i, s);
    LogSound(run, j, r);
    RunCommittedLogsAgree(run, i, j, s, r);
    var a, b := run[i].servers[s], run[j].servers[r];
    SharedPrefix(a.log, b.log, a.commitIndex, b.commitIndex, a.lastApplied);
  }

  lemma SoundIsExecution(run: seq<Sys>)
    requires SoundRun(run)
    ensures IsExecution(run)
  {
  }

  lemma SoundPrefix(log: Log, i: nat)
    requires i <= |log| && SoundLog(log)
    ensures SoundLog(log[..i])
    ensures i < |log| ==> SoundEntry(log[i])
  {
  }

  lemma FeedOne(d: Doc, log: Log, i: nat)
    requires WellFormed(d) && i < |log| && SoundLog(log)
    ensures Committable(Commands(log[..i])) && Committable(Commands(log[..i + 1]))
    ensures SoundEntry(log[i])
    ensures ApplyLog(d, Commands(log[..i + 1])) == Feed(ApplyLog(d, Commands(log[..i])), log[i])
  {
    hide Commands, ApplyEntry, ApplyLog;
    SoundPrefix(log, i);
    SoundPrefix(log, i + 1);
    CommandsSnoc(log, i);
    if log[i].data.Some? {
      ApplyLogConcat(d, Commands(log[..i]), [log[i].data.value]);
      ApplyLogOne(ApplyLog(d, Commands(log[..i])), log[i].data.value);
    } else {
      Whole(Commands(log[..i]));
    }
  }

  /** Feeding entry by entry, across restarts, gives what the applied log gives in one go. */
  lemma {:induction false} DocumentIsReplica(run: seq<Sys>, i: nat, s: nat, text: string)
    requires SoundRun(run) && i < |run| && s < |run[i].servers|
    ensures run[i].servers[s].lastApplied <= |run[i].servers[s].log| && SoundLog(run[i].servers[s].log)
    ensures DocumentAt(run, i, s, text) == Replica(run[i].servers[s], text)
  {
    hide SoundLog, Commands, ApplyEntry, Next, SoundStep;
    LogSound(run, i, s);
    if i == 0 {
      FreshReplica(run[0].servers[s], text);
    } else {
      RunIsLater(run, i - 1, i);
      DocumentIsReplica(run, i - 1, s, text);
      NextApplied(run[i - 1], run[i - 1 + 1], s);
      var was, now := run[i - 1].servers[s], run[i].servers[s];
      if now.lastApplied == was.lastApplied {
        AppliedAgree(run, i - 1, i, s, s);
      } else if now.lastApplied == was.lastApplied + 1 {
        AppliedAgree(run, i - 1, i, s, s);
        FeedOne(NewDoc(text), now.log, was.lastApplied);
      } else {
        FreshReplica(now, text);
      }
    }
  }

  lemma FreshReplica(sv: Server, text: string)
    requires sv.lastApplied == 0 && SoundLog(sv.log)
    ensures Replica(sv, text) == NewDoc(text)
  {
  }

  lemma ReplicasAgree(x: Log, y: Log, text: string)
    requires x <= y && SoundLog(y)
    ensures Committable(Commands(x)) && Committable(Commands(y))
    ensures var d, e := ApplyLog(NewDoc(text), Commands(x)), ApplyLog(NewDoc(text), Commands(y));
            Replays(text, d) && Replays(text, e) && d.log <= e.log
  {
    hide Commands, ApplyLog, Replays, Committable;
    var rest := CommandsPrefix(x, y);
    FreshReplays(text);
    RunKeepsReplay(text, NewDoc(text), Commands(x));
    var d := ApplyLog(NewDoc(text), Commands(x));
    RunKeepsReplay(text, d, rest);
    ApplyLogConcat(NewDoc(text), Commands(x), rest);
  }

  /**
   * Of any two servers' documents, at any two moments of a run, one revision log is a prefix of
   * the other, both heads are replays of their logs, and equal revisions show equal texts.
   */
  lemma DocumentsAgree(run: seq<Sys>, i: nat, j: nat, s: nat, r: nat, text: string)
    requires SoundRun(run) && i < |run| && j < |run| && s < |run[i].servers| && r < |run[j].servers|
    ensures var d, e := DocumentAt(run, i, s, text), DocumentAt(run, j, r, text);
            && Replays(text, d) && Replays(text, e)
            && (d.log <= e.log || e.log <= d.log)
            && (d.headRev == e.headRev ==> d.headText == e.headText)
  {
    hide SoundRun, DocumentAt, Commands, ApplyLog, SoundLog, Replays;
    DocumentIsReplica(run, i, s, text);
    DocumentIsReplica(run, j, r, text);
    var a, b := run[i].servers[s], run[j].servers[r];
    if a.lastApplied <= b.lastApplied {
      AppliedAgree(run, i, j, s, r);
      AppliedPrefix(a.log, b.log, a.lastApplied, b.lastApplied);
      ReplicasAgree(a.log[..a.lastApplied], b.log[..b.lastApplied], text);
    } else {
      AppliedAgree(run, j, i, r, s);
      AppliedPrefix(b.log, a.log, b.lastApplied, a.lastApplied);
      ReplicasAgree(b.log[..b.lastApplied], a.log[..a.lastApplied], text);
    }
    SameRevisionSameText(text, DocumentAt(run, i, s, text), DocumentAt(run, j, r, text));
  }

  lemma AppliedPrefix(x: Log, y: Log, i: nat, j: nat)
    requires i <= j <= |y| && i <= |x| && x[..i] == y[..i] && SoundLog(y)
    ensures x[..i] <= y[..j] && SoundLog(y[..j])
  {
  }

  lemma SameRevisionSameText(text: string, d: Doc, e: Doc)
    requires Replays(text, d) && Replays(text, e) && (d.log <= e.log || e.log <= d.log)
    ensures d.headRev == e.headRev ==> d.headText == e.headText
  {
    if d.headRev == e.headRev {
      assert d.log == e.log;
    }
  }
}
