/** The commit rule's arithmetic, and fast conflict backup against decrement-by-one. */
module RaftQuorum {
  import opened Numbers
  import opened Sequences
  import opened RaftServer
  import opened RaftSystem
  import opened RaftInvariant

  // ------------------------------------------------------------ the quorum index

  function Count(s: seq<nat>, k: nat): (n: nat) {
    if s == [] then 0 else (if s[0] >= k then 1 else 0) + Count(s[1..], k)
  }

  predicate Descending(s: seq<nat>) {
    forall i :: 0 <= i < |s| - 1 ==> s[i] >= s[i + 1]
  }

  lemma {:induction false} InsertCounts(x: nat, s: seq<nat>, k: nat)
    requires Descending(s)
    ensures Count(InsertDesc(x, s), k) == Count(s, k) + if x >= k then 1 else 0
    ensures Descending(InsertDesc(x, s))
    ensures InsertDesc(x, s)[0] == x || (s != [] && InsertDesc(x, s)[0] == s[0])
  {
    if s == [] || x >= s[0] {
      assert ([x] + s)[1..] == s;
    } else {
      InsertCounts(x, s[1..], k);
      var r := InsertDesc(x, s[1..]);
      assert ([s[0]] + r)[1..] == r;
      assert s == [s[0]] + s[1..];
    }
  }

  lemma {:induction false} SortCounts(s: seq<nat>, k: nat)
    ensures Count(SortDesc(s), k) == Count(s, k) && Descending(SortDesc(s))
  {
    if s != [] {
      SortCounts(s[1..], k);
      InsertCounts(s[0], SortDesc(s[1..]), k);
    }
  }

  /** In descending order, position `i` reaches `k` exactly when more than `i` elements do. */
  lemma {:induction false} PositionCounts(s: seq<nat>, i: nat, k: nat)
    requires Descending(s) && i < |s|
    ensures s[i] >= k <==> Count(s, k) > i
    decreases s
  {
    if i > 0 {
      PositionCounts(s[1..], i - 1, k);
      HeadIsLargest(s, i);
    } else if s[0] < k {
      NoneReach(s, k);
    }
  }

  lemma {:induction false} HeadIsLargest(s: seq<nat>, i: nat)
    requires Descending(s) && i < |s|
    ensures s[0] >= s[i]
  {
    if i > 0 {
      HeadIsLargest(s, i - 1);
      assert s[i - 1] >= s[i - 1 + 1];
    }
  }

  lemma {:induction false} NoneReach(s: seq<nat>, k: nat)
    requires Descending(s) && (s != [] ==> s[0] < k)
    ensures Count(s, k) == 0
  {
    if s != [] {
      if |s| > 1 {
        HeadIsLargest(s, 1);
      }
      NoneReach(s[1..], k);
    }
  }

  /** The servers whose match index reaches `k`. */
  function Holders(s: seq<nat>, k: nat): (r: set<nat>) {
    set p | p in Ids(|s|) && s[p] >= k
  }

  lemma {:induction false} CountSnoc(s: seq<nat>, x: nat, k: nat)
    ensures Count(s + [x], k) == Count(s, k) + if x >= k then 1 else 0
  {
    if s == [] {
      assert s + [x] == [x];
    } else {
      CountSnoc(s[1..], x, k);
      assert (s + [x])[1..] == s[1..] + [x];
    }
  }

  lemma HoldersSnoc(front: seq<nat>, x: nat, k: nat)
    ensures Holders(front + [x], k) == if x >= k then Holders(front, k) + {|front|} else Holders(front, k)
  {
    var s := front + [x];
    forall p: nat
      ensures p in Holders(s, k) <==> p in Holders(front, k) || (x >= k && p == |front|)
    {
      if p < |front| {
        assert s[p] == front[p];
      }
    }
  }

  lemma {:induction false} HoldersCount(s: seq<nat>, k: nat)
    ensures |Holders(s, k)| == Count(s, k)
    decreases |s|
  {
    if s != [] {
      var n := |s| - 1;
      var front, x := s[..n], s[n];
      HoldersCount(front, k);
      CountSnoc(front, x, k);
      HoldersSnoc(front, x, k);
      assert s == front + [x];
      hide Count;
    }
  }

  /** The quorum index is the greatest index that a majority holds. */
  lemma QuorumIndexIsGreatest(s: Server, self: nat, size: nat, k: nat)
    requires size > 0
    ensures k <= QuorumIndex(s, self, size) <==> IsQuorum(Holders(MatchIndexes(s, self, size), k), size)
  {
    var m := MatchIndexes(s, self, size);
    SortCounts(m, k);
    PositionCounts(SortDesc(m), size / 2, k);
    HoldersCount(m, k);
  }

  /** The commit rule of section 5.4.2 of the Raft paper, for one candidate index. */
  ghost predicate MayCommit(s: Server, self: nat, size: nat, n: nat) {
    && s.commitIndex < n <= |s.log| && s.log[n - 1].term == s.term
    && IsQuorum(Holders(MatchIndexes(s, self, size), n), size)
  }

  /** One look at the quorum index commits exactly the greatest index the rule allows. */
  lemma CommitRule(h: LeaderLogs, el: Elections, s: Server, self: nat, size: nat)
    requires size > 0 && HistoryInv(h, el) && GoodLog(h, s.log) && TermsUpTo(s.log, s.term)
    requires forall p: nat :: MatchOf(s, self, p) <= |s.log|
    ensures var n := AdvanceCommit(s, self, size).commitIndex;
            && (n == s.commitIndex || MayCommit(s, self, size, n))
            && (forall j: nat :: MayCommit(s, self, size, j) ==> j <= n)
  {
    var k := QuorumIndex(s, self, size);
    QuorumIndexIsGreatest(s, self, size, k);
    forall j: nat | MayCommit(s, self, size, j)
      ensures j <= AdvanceCommit(s, self, size).commitIndex
    {
      QuorumIndexIsGreatest(s, self, size, j);
      QuorumIndexIsHeld(s, self, size);
      TermsNondecreasing(h, el, s.log, j - 1, k - 1);
    }
  }

  /** Somebody's match index is the quorum index, so it lies within the leader's log. */
  lemma QuorumIndexIsHeld(s: Server, self: nat, size: nat)
    requires size > 0 && forall p: nat :: MatchOf(s, self, p) <= |s.log|
    ensures QuorumIndex(s, self, size) <= |s.log|
  {
    var k := QuorumIndex(s, self, size);
    QuorumIndexIsGreatest(s, self, size, k);
    var q := Holders(MatchIndexes(s, self, size), k);
    assert |q| > 0;
    var p :| p in q;
    assert MatchIndexes(s, self, size)[p] == MatchOf(s, self, p);
  }

  // ------------------------------------------------------------ fast backup

  /** `p` is the length of the longest common prefix. */
  ghost predicate AgreeUpTo(x: Log, y: Log, p: nat) {
    p <= |x| && p <= |y| && x[..p] == y[..p] && (p < |x| && p < |y| ==> x[p] != y[p])
  }

  /**
   * Fast backup: each refusal strictly lowers nextIndex, and never below the first index after
   * the longest common prefix, so it only skips indexes that decrement-by-one would also refuse.
   */
  lemma FastBackupIsSound(h: LeaderLogs, el: Elections, leader: Log, f: Server, req: AppendReq, p: nat)
    requires HistoryInv(h, el) && GoodLog(h, leader) && GoodLog(h, f.log)
    requires req.prevIndex <= |leader| && req.prevTerm == TermAt(leader, req.prevIndex)
    requires !Matches(f.log, req) && AgreeUpTo(leader, f.log, p)
    ensures p + 1 <= Backup(leader, Refusal(f, req)) <= req.prevIndex
  {
    var resp, prev := Refusal(f, req), req.prevIndex;
    if prev <= |f.log| {
      TermsNondecreasing(h, el, f.log, prev - 1, prev - 1);
      DivergedBefore(h, leader, f.log, prev, p);
      var i := LastOfTerm(leader, resp.conflictTerm);
      if i > 0 {
        FoundIsBefore(h, el, leader, f.log, prev, i);
        FoundIsAfterCommon(h, el, leader, f.log, prev, i, p);
      } else {
        NotFoundIsAfterCommon(leader, f.log, prev, p);
      }
    }
  }

  /** Every index a backup skips is one whose request would have been refused. */
  lemma SkippedWouldBeRefused(h: LeaderLogs, el: Elections, leader: Log, f: Server, req: AppendReq, p: nat, j: nat)
    requires HistoryInv(h, el) && GoodLog(h, leader) && GoodLog(h, f.log)
    requires req.prevIndex <= |leader| && req.prevTerm == TermAt(leader, req.prevIndex)
    requires !Matches(f.log, req) && AgreeUpTo(leader, f.log, p)
    requires Backup(leader, Refusal(f, req)) <= j <= req.prevIndex
    ensures !Matches(f.log, req.(prevIndex := j, prevTerm := TermAt(leader, j)))
  {
    FastBackupIsSound(h, el, leader, f, req, p);
    if Matches(f.log, req.(prevIndex := j, prevTerm := TermAt(leader, j))) {
      LogMatching(h, leader, f.log, j - 1);
      AgreeFurther(leader, f.log, p, j);
      assert false;
    }
  }

  lemma AgreeFurther(x: Log, y: Log, p: nat, j: nat)
    requires AgreeUpTo(x, y, p) && j <= |x| && j <= |y| && x[..j] == y[..j]
    ensures j <= p
  {
    if p < j {
      SameAt(x, y, j, p);
      assert false;
    }
  }

  lemma DivergedBefore(h: LeaderLogs, leader: Log, log: Log, prev: nat, p: nat)
    requires 1 <= prev <= |leader| && prev <= |log| && leader[prev - 1].term != log[prev - 1].term
    requires AgreeUpTo(leader, log, p)
    ensures p < prev
  {
    if p >= prev {
      SameAt(leader, log, p, prev - 1);
      assert false;
    }
  }

  /** The leader's last entry of the conflicting term lies before the refused index. */
  lemma FoundIsBefore(h: LeaderLogs, el: Elections, leader: Log, log: Log, prev: nat, i: nat)
    requires HistoryInv(h, el) && GoodLog(h, leader) && GoodLog(h, log)
    requires 1 <= prev <= |leader| && prev <= |log| && leader[prev - 1].term != log[prev - 1].term
    requires 1 <= i <= |leader| && leader[i - 1].term == log[prev - 1].term
    ensures i < prev
  {
    if i >= prev {
      SameTermSameRun(h, el, log, leader, prev - 1, i - 1);
    }
  }

  lemma FoundIsAfterCommon(h: LeaderLogs, el: Elections, leader: Log, log: Log, prev: nat, i: nat, p: nat)
    requires HistoryInv(h, el) && GoodLog(h, leader) && GoodLog(h, log) && p < prev <= |log|
    requires AgreeUpTo(leader, log, p) && i == LastOfTerm(leader, log[prev - 1].term) && i > 0
    ensures p <= i
  {
    if p > i {
      SameAt(leader, log, p, p - 1);
      TermsNondecreasing(h, el, log, p - 1, prev - 1);
      TermsNondecreasing(h, el, leader, i - 1, p - 1);
    }
  }

  lemma NotFoundIsAfterCommon(leader: Log, log: Log, prev: nat, p: nat)
    requires 1 <= prev <= |log| && p < prev && AgreeUpTo(leader, log, p)
    requires LastOfTerm(leader, log[prev - 1].term) == 0
    ensures p < RunStart(log, prev)
  {
    var j := RunStart(log, prev);
    if p >= j {
      SameAt(leader, log, p, j - 1);
      assert false;
    }
  }

  // ------------------------------------------------------------ backing up to the end

  /** The length of the longest common prefix, at least `i`. */
  ghost function CommonLength(x: Log, y: Log, i: nat): (p: nat)
    requires i <= |x| && i <= |y| && x[..i] == y[..i]
    ensures p >= i && AgreeUpTo(x, y, p)
    decreases |x| - i
  {
    if i < |x| && i < |y| && x[i] == y[i] then
      PrefixSnoc(x, i);
      PrefixSnoc(y, i);
      CommonLength(x, y, i + 1)
    else i
  }

  function Ask(sv: Server, self: nat, next: nat): (req: AppendReq)
    requires next >= 1
  {
    BuildAppend(sv, self, Peer(next, 0))
  }

  /** A request matches exactly up to the first index after the common prefix. */
  lemma MatchesUpToCommon(h: LeaderLogs, sv: Server, self: nat, log: Log, next: nat)
    requires GoodLog(h, sv.log) && GoodLog(h, log) && 1 <= next <= |sv.log| + 1
    ensures Matches(log, Ask(sv, self, next)) <==> next <= CommonLength(sv.log, log, 0) + 1
  {
    var prev, p := next - 1, CommonLength(sv.log, log, 0);
    if prev > 0 {
      if Matches(log, Ask(sv, self, next)) {
        LogMatching(h, sv.log, log, prev - 1);
        AgreeFurther(sv.log, log, p, prev);
      } else if prev <= p {
        SameAt(sv.log, log, p, prev - 1);
        assert false;
      }
    }
  }

  /** Decrement-by-one against a follower that stands still: the first nextIndex accepted. */
  ghost function StepBack(sv: Server, self: nat, log: Log, next: nat): (r: nat)
    requires 1 <= next <= |sv.log| + 1
    decreases next
  {
    if next == 1 || Matches(log, Ask(sv, self, next)) then next else StepBack(sv, self, log, next - 1)
  }

  /** The same with fast backup. */
  ghost function JumpBack(h: LeaderLogs, el: Elections, sv: Server, self: nat, f: Server, next: nat): (r: nat)
    requires HistoryInv(h, el) && GoodLog(h, sv.log) && GoodLog(h, f.log) && 1 <= next <= |sv.log| + 1
    decreases next
  {
    if Matches(f.log, Ask(sv, self, next)) then next
    else
      FastBackupIsSound(h, el, sv.log, f, Ask(sv, self, next), CommonLength(sv.log, f.log, 0));
      JumpBack(h, el, sv, self, f, Backup(sv.log, Refusal(f, Ask(sv, self, next))))
  }

  lemma StepBackOnce(sv: Server, self: nat, log: Log, next: nat)
    requires 1 <= next <= |sv.log| + 1
    ensures StepBack(sv, self, log, next)
         == if next == 1 || Matches(log, Ask(sv, self, next)) then next else StepBack(sv, self, log, next - 1)
  {
    hide Matches, Ask;
  }

  lemma {:induction false} StepBackEnds(h: LeaderLogs, sv: Server, self: nat, log: Log, next: nat)
    requires GoodLog(h, sv.log) && GoodLog(h, log) && 1 <= next <= |sv.log| + 1
    ensures StepBack(sv, self, log, next) == Min(next, CommonLength(sv.log, log, 0) + 1)
    decreases next
  {
    hide GoodLog, CommonLength, Matches, Ask, StepBack;
    MatchesUpToCommon(h, sv, self, log, next);
    StepBackOnce(sv, self, log, next);
    if next > 1 && !Matches(log, Ask(sv, self, next)) {
      StepBackEnds(h, sv, self, log, next - 1);
    }
  }

  /** Fast backup ends, and where decrement-by-one ends: right after the longest common prefix. */
  lemma {:induction false} JumpBackEndsWhereStepBackDoes(h: LeaderLogs, el: Elections, sv: Server, self: nat, f: Server,
      next: nat)
    requires HistoryInv(h, el) && GoodLog(h, sv.log) && GoodLog(h, f.log) && 1 <= next <= |sv.log| + 1
    ensures JumpBack(h, el, sv, self, f, next) == StepBack(sv, self, f.log, next)
            == Min(next, CommonLength(sv.log, f.log, 0) + 1)
    decreases next
  {
    hide GoodLog, HistoryInv, CommonLength, Backup, Refusal, StepBack;
    MatchesUpToCommon(h, sv, self, f.log, next);
    StepBackEnds(h, sv, self, f.log, next);
    if !Matches(f.log, Ask(sv, self, next)) {
      FastBackupIsSound(h, el, sv.log, f, Ask(sv, self, next), CommonLength(sv.log, f.log, 0));
      JumpBackEndsWhereStepBackDoes(h, el, sv, self, f, Backup(sv.log, Refusal(f, Ask(sv, self, next))));
    }
  }
}
