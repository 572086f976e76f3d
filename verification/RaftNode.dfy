/** The server object: the handlers as they update fields and log store, proved against the functions. */
module RaftNode {
  import opened Numbers
  import opened Options
  import opened Sequences
  import opened DocumentFsm
  import opened RaftServer
  import opened LogStore
  import opened RaftQuorum
  import opened ReplicatedDocument

  class Node {
    const self: nat
    const size: nat
    const logStore: InmemLogStore
    const fsm: DocumentStateMachine
    var currentTerm: nat
    var votedFor: Option<nat>
    var state: Role
    var commitIndex: nat
    var lastApplied: nat
    var peers: map<nat, Peer>

    ghost predicate Valid()
      reads this, logStore
    {
      logStore.Contiguous() && self < size
    }

    ghost function Model(): (r: Server)
      requires Valid()
      reads this, logStore
    {
      Server(currentTerm, votedFor, logStore.Contents(), state, commitIndex, lastApplied, peers)
    }

    constructor (self: nat, size: nat, initialText: string)
      requires self < size
      ensures Valid() && fresh(logStore) && fresh(fsm)
      ensures Model() == Server(0, None, [], Follower, 0, 0, map[])
      ensures fsm.Valid() && fsm.Model() == NewDoc(initialText)
    {
      this.self, this.size := self, size;
      logStore := new InmemLogStore();
      fsm := new DocumentStateMachine(initialText);
      currentTerm, votedFor, state, commitIndex, lastApplied, peers := 0, None, Follower, 0, 0, map[];
    }

    /** A restart: term and vote from the stable store, the log from the log store, the rest fresh. */
    constructor Restore(self: nat, size: nat, initialText: string, term: nat, vote: Option<nat>, store: InmemLogStore)
      requires self < size && store.Contiguous()
      ensures Valid() && logStore == store && fresh(fsm)
      ensures forall s: Server :: s.term == term && s.votedFor == vote && s.log == store.Contents() ==>
                Model() == Restarted(s)
      ensures fsm.Valid() && fsm.Model() == NewDoc(initialText)
    {
      this.self, this.size := self, size;
      logStore := store;
      fsm := new DocumentStateMachine(initialText);
      currentTerm, votedFor, state, commitIndex, lastApplied, peers := term, vote, Follower, 0, 0, map[];
    }

    // ---------------------------------------------------------- elections

    method LastLogInfo() returns (index: nat, term: nat)
      requires Valid()
      ensures index == |Model().log| && term == LastTerm(Model().log)
    {
      index := logStore.LastIndex();
      if index == 0 {
        return 0, 0;
      }
      var e := logStore.GetLog(index);
      term := e.value.term;
    }

    method StepDown(newTerm: nat)
      requires Valid()
      modifies this
      ensures Valid() && Model() == RaftServer.StepDown(old(Model()), newTerm)
    {
      currentTerm := newTerm;
      state := Follower;
      votedFor := None;
    }

    /** The state part of starting an election: the request is sent to everyone else. */
    method StartElection() returns (req: VoteReq)
      requires Valid()
      modifies this
      ensures Valid() && Model() == RaftServer.StartElection(old(Model()), self)
      ensures req == ElectionRequest(Model(), self)
    {
      state := Candidate;
      currentTerm := currentTerm + 1;
      votedFor := Some(self);
      var index, term := LastLogInfo();
      req := VoteReq(currentTerm, self, index, term);
    }

    method HandleRequestVote(req: VoteReq) returns (resp: VoteResp, reset: bool)
      requires Valid()
      modifies this
      ensures Valid() && Voted(Model(), resp) == HandleVote(old(Model()), req)
      ensures reset == resp.granted
    {
      if req.term < currentTerm {
        return VoteResp(currentTerm, false), false;
      }
      if req.term > currentTerm {
        StepDown(req.term);
      }
      if votedFor.Some? && votedFor.value != req.candidate {
        return VoteResp(currentTerm, false), false;
      }
      var index, term := LastLogInfo();
      if !UpToDate(req.lastTerm, req.lastIndex, term, index) {
        return VoteResp(currentTerm, false), false;
      }
      votedFor := Some(req.candidate);
      return VoteResp(currentTerm, true), true;
    }

    // ---------------------------------------------------------- leading

    /** Winning, together with the initialisation of the peers that follows it. */
    method BecomeLeader()
      requires Valid()
      modifies this
      ensures Valid() && Model() == RaftServer.BecomeLeader(old(Model()), self, size)
    {
      var lastIdx := logStore.LastIndex();
      var initial: map<nat, Peer> := map[];
      assert initial == FreshPeers(self, 0, lastIdx);
      hide FreshPeers;
      for p := 0 to size
        invariant initial == FreshPeers(self, p, lastIdx) && unchanged(this)
      {
        FreshPeersNext(self, p, lastIdx);
        if p != self {
          initial := initial[p := Peer(lastIdx + 1, 0)];
        }
      }
      state := Leader;
      peers := initial;
    }

    /** A client command, or the no-op of a new leader. */
    method Append(data: Option<Submission>) returns (accepted: bool)
      requires Valid()
      modifies logStore
      ensures Valid() && accepted == (state == Leader)
      ensures Model() == if accepted then AppendCommand(old(Model()), data) else old(Model())
    {
      if state != Leader {
        return false;
      }
      var lastIdx := logStore.LastIndex();
      logStore.StoreLogs([Entry(lastIdx + 1, currentTerm, data)]);
      return true;
    }

    /** Everything from an index to the end of the log. */
    method EntriesFrom(next: nat) returns (entries: seq<Entry>)
      requires Valid() && next >= 1
      ensures entries == if next <= |Model().log| then Model().log[next - 1..] else []
    {
      var lastIdx := logStore.LastIndex();
      entries := [];
      if next <= lastIdx {
        for i := next to lastIdx + 1
          invariant entries == logStore.Contents()[next - 1..i - 1]
        {
          var e := logStore.GetLog(i);
          entries := entries + [e.value];
          SliceSnoc(logStore.Contents(), next - 1, i - 1);
        }
      }
    }

    method BuildRequest(p: nat) returns (req: AppendReq)
      requires Valid() && p in peers && peers[p].nextIndex >= 1
      ensures req == BuildAppend(Model(), self, peers[p])
    {
      var next := peers[p].nextIndex;
      var prevTerm := 0;
      if next > 1 {
        var e := logStore.GetLog(next - 1);
        if e.Some? {
          prevTerm := e.value.term;
        }
      }
      var entries := EntriesFrom(next);
      req := AppendReq(currentTerm, self, next - 1, prevTerm, entries, commitIndex);
    }

    // ---------------------------------------------------------- following

    /** The first index of the run of equal terms that ends at `prev`. */
    method ConflictStart(prev: nat, term: nat) returns (index: nat)
      requires Valid() && 1 <= prev <= |Model().log| && Model().log[prev - 1].term == term
      ensures index == RunStart(Model().log, prev)
    {
      index := prev;
      var i := prev - 1;
      while i >= 1
        invariant 1 <= index == i + 1 <= prev && Model().log[index - 1].term == term
        invariant RunStart(Model().log, prev) == RunStart(Model().log, index)
      {
        var e := logStore.GetLog(i);
        if e.None? || e.value.term != term {
          break;
        }
        index := i;
        i := i - 1;
      }
    }

    /** At a conflict: delete it and everything after it, then store the rest of the request. */
    method CutAndStore(index: nat, rest: seq<Entry>)
      requires Valid()
      modifies logStore
      ensures logStore.entries == Stored(Without(old(logStore.entries), index, old(logStore.highIdx) + 1), rest)
      ensures Highest(logStore.entries.Keys, logStore.highIdx) && (Indexed(rest) ==> logStore.Valid())
      ensures old(1 <= index <= |Model().log|) && NumberedFrom(rest, index - 1) ==>
                Valid() && logStore.Contents() == old(Model()).log[..index - 1] + rest
    {
      hide IsLog, AsLog, Stored, Without, Bounds, Indexed, NumberedFrom, CachedLow, CachedHigh,
           Highest;
      var lastIdx := logStore.LastIndex();
      logStore.DeleteRange(index, lastIdx);
      logStore.StoreLogs(rest);
    }

    /** Skip what matches; cut and append at the first conflict, append at the first gap. */
    method AppendNew(ghost prev: nat, entries: seq<Entry>)
      requires Valid()
      modifies logStore
      ensures logStore.entries == StoreMerged(old(logStore.entries), old(logStore.highIdx), entries)
      ensures Highest(logStore.entries.Keys, logStore.highIdx) && (Indexed(entries) ==> logStore.Valid())
      ensures old(prev <= |Model().log|) && NumberedFrom(entries, prev) ==>
                Valid() && logStore.Contents() == MergeEntries(old(Model()).log, prev, entries)
    {
      hide MergeEntries, StoreMerged, IsLog, AsLog, Stored, Without, Bounds, Indexed, NumberedFrom, CachedLow,
           CachedHigh, Highest;
      ghost var log, m, high := logStore.Contents(), logStore.entries, logStore.highIdx;
      ghost var numbered := prev <= |log| && NumberedFrom(entries, prev);
      BoundsHighest(logStore.entries.Keys, logStore.lowIdx, logStore.highIdx);
      Whole(entries);
      for i := 0 to |entries|
        invariant Valid() && logStore.entries == m && logStore.highIdx == high && logStore.Contents() == log
        invariant StoreMerged(m, high, entries) == StoreMerged(m, high, entries[i..])
        invariant numbered ==>
                    prev + i <= |log| && MergeEntries(log, prev, entries) == MergeEntries(log, prev + i, entries[i..])
      {
        var entry := entries[i];
        StoreMergedStep(m, high, entries, i);
        IndexedRest(entries, i);
        if numbered {
          MergeStep(log, prev + i, entries, i);
          NumberedRest(entries, prev, i);
        }
        var existing := logStore.GetLog(entry.index);
        if existing.None? {
          logStore.StoreLogs(entries[i..]);
          return;
        }
        if existing.value.term != entry.term {
          CutAndStore(entry.index, entries[i..]);
          return;
        }
      }
      StoreMergedNothing(m, high, entries);
      if numbered {
        MergeNothing(log, prev + |entries|, entries);
      }
    }

    /** The consistency check, with the conflict hint when it fails. */
    method CheckPrevious(req: AppendReq) returns (ok: bool, resp: AppendResp)
      requires Valid()
      ensures ok == Matches(Model().log, req)
      ensures !ok ==> resp == Refusal(Model(), req) && !resp.success
    {
      hide RunStart;
      resp := AppendResp(currentTerm, false, 0, 0);
      if req.prevIndex > 0 {
        var lastIdx := logStore.LastIndex();
        if lastIdx < req.prevIndex {
          return false, AppendResp(currentTerm, false, 0, lastIdx + 1);
        }
        var prevEntry := logStore.GetLog(req.prevIndex);
        if prevEntry.value.term != req.prevTerm {
          var start := ConflictStart(req.prevIndex, prevEntry.value.term);
          return false, AppendResp(currentTerm, false, prevEntry.value.term, start);
        }
      }
      ok := true;
    }

    /**
     * On a request whose entries are numbered on from its previous index, as every leader's are,
     * this is HandleAppend; on any other the store is still merged entry by entry.
     */
    method HandleAppendEntries(req: AppendReq) returns (resp: AppendResp, reset: bool)
      requires Valid()
      modifies this, logStore
      ensures NumberedFrom(req.entries, req.prevIndex) ==>
                Valid() && Appended(Model(), resp) == HandleAppend(old(Model()), req)
      ensures reset == (req.term >= old(currentTerm)) && resp == HandleAppend(old(Model()), req).resp
      ensures logStore.entries == if resp.success
                                  then StoreMerged(old(logStore.entries), old(logStore.highIdx), req.entries)
                                  else old(logStore.entries)
      ensures Highest(logStore.entries.Keys, logStore.highIdx) && (Indexed(req.entries) ==> logStore.Valid())
      ensures var want := HandleAppend(old(Model()), req).server;
              currentTerm == want.term && votedFor == want.votedFor && state == want.role
              && lastApplied == want.lastApplied && peers == want.peers
      ensures commitIndex == if resp.success && req.leaderCommit > old(commitIndex)
                             then Min(req.leaderCommit, logStore.highIdx) else old(commitIndex)
    {
      hide Refusal, MergeEntries, NumberedFrom, StoreMerged, Indexed, Highest, Bounds;
      BoundsHighest(logStore.entries.Keys, logStore.lowIdx, logStore.highIdx);
      if req.term < currentTerm {
        return AppendResp(currentTerm, false, 0, 0), false;
      }
      if req.term > currentTerm {
        StepDown(req.term);
      } else if state != Follower {
        StepDown(req.term);
      }
      assert Model() == Submit(old(Model()), req.term);
      var ok;
      ok, resp := CheckPrevious(req);
      if !ok {
        return resp, true;
      }
      AppendNew(req.prevIndex, req.entries);
      if req.leaderCommit > commitIndex {
        var lastIdx := logStore.LastIndex();
        commitIndex := if lastIdx < req.leaderCommit then lastIdx else req.leaderCommit;
      }
      return AppendResp(currentTerm, true, 0, 0), true;
    }

    // ---------------------------------------------------------- responses

    /** The last index of `term` in the log, searched from the end; 0 when there is none. */
    method FindLast(term: nat) returns (index: nat)
      requires Valid()
      ensures index == LastOfTerm(Model().log, term)
    {
      index := 0;
      var i := logStore.LastIndex();
      ghost var log := Model().log;
      Whole(log);
      hide LastOfTerm;
      while i >= 1
        invariant 0 <= i <= |log| && LastOfTerm(log, term) == LastOfTerm(log[..i], term)
      {
        var e := logStore.GetLog(i);
        LastOfTermNext(log, term, i);
        if e.value.term == term {
          return i;
        }
        i := i - 1;
      }
    }

    method ProcessResponse(p: nat, req: AppendReq, resp: AppendResp)
      requires Valid() && p in peers && resp.term <= currentTerm
      requires peers.Keys == Others(self, size) && NumberedFrom(req.entries, req.prevIndex)
      modifies this
      ensures Valid() && Model() == HandleAppendResp(old(Model()), self, size, p, req, resp)
    {
      hide SortDesc, MatchIndexes, LastOfTerm;
      if resp.success {
        if |req.entries| > 0 {
          var m := req.entries[|req.entries| - 1].index;
          peers := peers[p := Peer(m + 1, m)];
        }
        assert Model() == Progress(old(Model()), p, req);
        AdvanceCommitIndex();
      } else {
        var next := resp.conflictIndex;
        if resp.conflictTerm > 0 {
          var found := FindLast(resp.conflictTerm);
          if found > 0 {
            next := found + 1;
          }
        }
        if next < 1 {
          next := 1;
        }
        peers := peers[p := peers[p].(nextIndex := next)];
      }
    }

    /** The match indexes, the server's own first and the peers' in whatever order the map yields them. */
    method CollectMatches() returns (matches: seq<nat>)
      requires Valid() && peers.Keys == Others(self, size)
      ensures |matches| == size
      ensures forall k: nat :: Count(matches, k) == Count(MatchIndexes(Model(), self, size), k)
    {
      ghost var sv := Model();
      var lastIdx := logStore.LastIndex();
      matches := [lastIdx];
      var rest := peers.Keys;
      ghost var done := {self};
      StartTally(sv, self);
      while rest != {}
        invariant rest <= peers.Keys && done !! rest && done + rest == Ids(size)
        invariant |matches| == |done| && Tallied(sv, self, done, matches)
        decreases rest
      {
        var p :| p in rest;
        TallyOneMore(sv, self, done, matches, p);
        matches := matches + [peers[p].matchIndex];
        rest := rest - {p};
        done := done + {p};
      }
      assert done == Ids(size);
      TallyAll(sv, self, size, matches);
    }

    method AdvanceCommitIndex()
      requires Valid() && peers.Keys == Others(self, size)
      modifies `commitIndex
      ensures Valid() && Model() == AdvanceCommit(old(Model()), self, size)
    {
      hide SortDesc, MatchIndexes, Count;
      var matches := CollectMatches();
      var newCommit := SortDesc(matches)[size / 2];
      OrderDoesNotMatter(matches, MatchIndexes(Model(), self, size), size / 2);
      if newCommit <= commitIndex {
        return;
      }
      var e := logStore.GetLog(newCommit);
      if e.None? || e.value.term != currentTerm {
        return;
      }
      commitIndex := newCommit;
    }

    // ---------------------------------------------------------- applying

    /** Everything committed and not yet applied goes to the state machine, in log order. */
    method ApplyCommitted()
      requires Valid() && fsm.Valid() && lastApplied <= commitIndex <= |Model().log| && SoundLog(Model().log)
      modifies `lastApplied, fsm
      ensures Valid() && fsm.Valid() && Model() == old(Model()).(lastApplied := commitIndex)
      ensures fsm.Model() == ApplyLog(old(fsm.Model()), Commands(Model().log[old(lastApplied)..commitIndex]))
    {
      var from, to := lastApplied, commitIndex;
      hide ApplyEntry, Commands, ApplyLog, SoundLog;
      ghost var log := logStore.Contents();
      ghost var d := fsm.Model();
      FedNone(d, log, from);
      for idx := from to to
        invariant Valid() && fsm.Valid() && Model() == old(Model()).(lastApplied := idx)
        invariant fsm.Model() == Fed(d, log, from, idx)
      {
        FedOne(d, log, from, idx);
        var e := logStore.GetLog(idx + 1);
        if e.value.data.Some? {
          var r := fsm.Apply(e.value.data.value);
        }
        lastApplied := idx + 1;
      }
    }
  }

  /** What the merge loop does to the store, whatever the numbering of the entries. */
  function StoreMerged(m: Entries, high: nat, es: seq<Entry>): (r: Entries) {
    if es == [] then m
    else if es[0].index !in m then Stored(m, es)
    else if m[es[0].index].term != es[0].term then Stored(Without(m, es[0].index, high + 1), es)
    else StoreMerged(m, high, es[1..])
  }

  lemma StoreMergedStep(m: Entries, high: nat, es: seq<Entry>, i: nat)
    requires i < |es|
    ensures StoreMerged(m, high, es[i..]) ==
              if es[i].index !in m then Stored(m, es[i..])
              else if m[es[i].index].term != es[i].term then Stored(Without(m, es[i].index, high + 1), es[i..])
              else StoreMerged(m, high, es[i + 1..])
  {
    DropDrop(es, i, 1);
  }

  lemma StoreMergedNothing(m: Entries, high: nat, es: seq<Entry>)
    ensures StoreMerged(m, high, es[|es|..]) == m
  {
  }

  /** One turn of the merge, at position `k` of the log and `i` of the entries. */
  lemma MergeStep(log: Log, k: nat, entries: seq<Entry>, i: nat)
    requires k <= |log| && i < |entries|
    ensures MergeEntries(log, k, entries[i..]) ==
              if k == |log| then log + entries[i..]
              else if log[k].term != entries[i].term then log[..k] + entries[i..]
              else MergeEntries(log, k + 1, entries[i + 1..])
  {
    DropDrop(entries, i, 1);
  }

  lemma IndexedRest(entries: seq<Entry>, i: nat)
    requires i < |entries|
    ensures Indexed(entries) ==> Indexed(entries[i..])
  {
  }

  lemma NumberedRest(entries: seq<Entry>, n: nat, i: nat)
    requires NumberedFrom(entries, n) && i < |entries|
    ensures entries[i].index == n + i + 1 && NumberedFrom(entries[i..], n + i)
  {
  }

  lemma MergeNothing(log: Log, k: nat, entries: seq<Entry>)
    requires k <= |log|
    ensures MergeEntries(log, k, entries[|entries|..]) == log
  {
  }

  lemma FreshPeersNext(self: nat, n: nat, lastIdx: nat)
    ensures FreshPeers(self, n + 1, lastIdx)
         == if n == self then FreshPeers(self, n, lastIdx) else FreshPeers(self, n, lastIdx)[n := Peer(lastIdx + 1, 0)]
  {
  }

  lemma LastOfTermNext(log: Log, term: nat, i: nat)
    requires 1 <= i <= |log|
    ensures LastOfTerm(log[..i], term) == if log[i - 1].term == term then i else LastOfTerm(log[..i - 1], term)
  {
    TakeTake(log, i - 1, i);
  }

  /** A document after the entries from `i` up to `j` of a log. */
  ghost function Fed(d: Doc, log: Log, i: nat, j: nat): (r: Doc)
    requires WellFormed(d) && i <= j <= |log| && SoundLog(log)
    ensures WellFormed(r)
  {
    ApplyLog(d, Commands(log[i..j]))
  }

  lemma FedNone(d: Doc, log: Log, i: nat)
    requires WellFormed(d) && i <= |log| && SoundLog(log)
    ensures Fed(d, log, i, i) == d
  {
  }

  lemma FedOne(d: Doc, log: Log, i: nat, j: nat)
    requires WellFormed(d) && i <= j < |log| && SoundLog(log)
    ensures SoundEntry(log[j])
    ensures Fed(d, log, i, j + 1) == Feed(Fed(d, log, i, j), log[j])
  {
    hide Commands, ApplyLog, ApplyEntry;
    var part := log[i..j + 1];
    FeedOne(d, part, j - i);
    assert part[..j - i] == log[i..j];
    Whole(part);
  }

  // ------------------------------------------------------------ counting match indexes

  /** Those of the servers in `done` whose match index reaches `k`. */
  ghost function Reaching(sv: Server, self: nat, done: set<nat>, k: nat): set<nat> {
    set p | p in done && MatchOf(sv, self, p) >= k
  }

  ghost predicate Tallied(sv: Server, self: nat, done: set<nat>, matches: seq<nat>) {
    forall k: nat :: Count(matches, k) == |Reaching(sv, self, done, k)|
  }

  lemma StartTally(sv: Server, self: nat)
    ensures Tallied(sv, self, {self}, [|sv.log|])
  {
    forall k: nat
      ensures Count([|sv.log|], k) == |Reaching(sv, self, {self}, k)|
    {
      assert Reaching(sv, self, {self}, k) == if |sv.log| >= k then {self} else {};
    }
  }

  lemma ReachingOneMore(sv: Server, self: nat, done: set<nat>, p: nat, k: nat)
    requires p !in done
    ensures |Reaching(sv, self, done + {p}, k)|
         == |Reaching(sv, self, done, k)| + if MatchOf(sv, self, p) >= k then 1 else 0
  {
    var was := Reaching(sv, self, done, k);
    assert Reaching(sv, self, done + {p}, k) == if MatchOf(sv, self, p) >= k then was + {p} else was;
  }

  lemma TallyOneMore(sv: Server, self: nat, done: set<nat>, matches: seq<nat>, p: nat)
    requires Tallied(sv, self, done, matches) && p !in done
    ensures Tallied(sv, self, done + {p}, matches + [MatchOf(sv, self, p)])
  {
    forall k: nat
      ensures Count(matches + [MatchOf(sv, self, p)], k) == |Reaching(sv, self, done + {p}, k)|
    {
      hide Count, Reaching;
      CountSnoc(matches, MatchOf(sv, self, p), k);
      ReachingOneMore(sv, self, done, p, k);
    }
  }

  lemma TallyAll(sv: Server, self: nat, size: nat, matches: seq<nat>)
    requires Tallied(sv, self, Ids(size), matches)
    ensures forall k: nat :: Count(matches, k) == Count(MatchIndexes(sv, self, size), k)
  {
    forall k: nat
      ensures Count(matches, k) == Count(MatchIndexes(sv, self, size), k)
    {
      HoldersCount(MatchIndexes(sv, self, size), k);
      assert Holders(MatchIndexes(sv, self, size), k) == Reaching(sv, self, Ids(size), k);
    }
  }

  /** Sorting makes the order of collection irrelevant. */
  lemma OrderDoesNotMatter(x: seq<nat>, y: seq<nat>, i: nat)
    requires |x| == |y| && i < |x| && forall k: nat :: Count(x, k) == Count(y, k)
    ensures SortDesc(x)[i] == SortDesc(y)[i]
  {
    var a, b := SortDesc(x)[i], SortDesc(y)[i];
    SortCounts(x, a);
    SortCounts(y, a);
    SortCounts(x, b);
    SortCounts(y, b);
    hide Count, SortDesc;
    PositionCounts(SortDesc(x), i, a);
    PositionCounts(SortDesc(y), i, a);
    PositionCounts(SortDesc(x), i, b);
    PositionCounts(SortDesc(y), i, b);
  }
}
