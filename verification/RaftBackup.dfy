/** How fast fast backup is: one refusal disposes of a whole term of the follower's log. */
module RaftBackup {
  import opened RaftServer
  import opened RaftInvariant
  import opened RaftQuorum

  ghost predicate HasTerm(log: Log, term: nat) {
    exists k :: 0 <= k < |log| && log[k].term == term
  }

  /**
   * Where a refused leader goes on. A log that is too short: right behind it. A conflict: right
   * behind the leader's last entry of the conflicting term, or, if it has none, at the follower's
   * first entry of that term.
   */
  ghost predicate NextAfterRefusal(leader: Log, log: Log, prev: nat, next: nat) {
    if |log| < prev then next == |log| + 1
    else if prev == 0 then false
    else
      var t := log[prev - 1].term;
      if HasTerm(leader, t)
      then
        && 2 <= next <= |leader| + 1 && leader[next - 2].term == t
        && forall k :: next - 1 <= k < |leader| ==> leader[k].term != t
      else
        && 1 <= next <= prev && log[next - 1].term == t
        && forall k :: 0 <= k < next - 1 ==> log[k].term < t
  }

  lemma RefusalDisposesOfTerm(h: LeaderLogs, el: Elections, leader: Log, f: Server, req: AppendReq)
    requires HistoryInv(h, el) && GoodLog(h, f.log) && !Matches(f.log, req)
    ensures NextAfterRefusal(leader, f.log, req.prevIndex, Backup(leader, Refusal(f, req)))
  {
    hide HistoryInv, GoodLog;
    var prev := req.prevIndex;
    if prev <= |f.log| {
      var t := f.log[prev - 1].term;
      TermsNondecreasing(h, el, f.log, prev - 1, prev - 1);
      var i, j := LastOfTerm(leader, t), RunStart(f.log, prev);
      if i == 0 {
        forall k: nat | k < j - 1
          ensures f.log[k].term < t
        {
          TermsNondecreasing(h, el, f.log, k, j - 2);
          TermsNondecreasing(h, el, f.log, j - 2, prev - 1);
        }
      } else {
        assert leader[i - 1].term == t;
      }
    }
  }

  // ------------------------------------------------------------ how many refusals

  /** The refusals fast backup takes against a follower that stands still. */
  ghost function Refusals(h: LeaderLogs, el: Elections, sv: Server, self: nat, f: Server, next: nat): (n: nat)
    requires HistoryInv(h, el) && GoodLog(h, sv.log) && GoodLog(h, f.log) && 1 <= next <= |sv.log| + 1
    decreases next
  {
    if Matches(f.log, Ask(sv, self, next)) then 0
    else
      FastBackupIsSound(h, el, sv.log, f, Ask(sv, self, next), CommonLength(sv.log, f.log, 0));
      1 + Refusals(h, el, sv, self, f, Backup(sv.log, Refusal(f, Ask(sv, self, next))))
  }

  /** The terms of the entries after the first `p`, up to the first `k`. */
  function TermsIn(log: Log, p: nat, k: nat): (r: set<nat>)
    requires k <= |log|
  {
    set i | p <= i < k :: log[i].term
  }

  lemma {:induction false} Subset<T>(x: set<T>, y: set<T>)
    requires x <= y
    ensures |x| <= |y|
  {
    assert y == x + (y - x);
  }

  lemma OneTermLess(log: Log, p: nat, k: nat, n: nat)
    requires p < n <= |log| && k < n && forall i :: 0 <= i < k ==> log[i].term != log[n - 1].term
    ensures |TermsIn(log, p, k)| < |TermsIn(log, p, n)|
  {
    var t := log[n - 1].term;
    assert TermsIn(log, p, k) + {t} <= TermsIn(log, p, n);
    Subset(TermsIn(log, p, k) + {t}, TermsIn(log, p, n));
  }

  lemma SomeTerm(log: Log, p: nat, n: nat)
    requires p < n <= |log|
    ensures |TermsIn(log, p, n)| >= 1
  {
    Subset({log[n - 1].term}, TermsIn(log, p, n));
  }

  /** After a conflict the next one, if there is one, is about an earlier term. */
  lemma NextConflictIsEarlier(h: LeaderLogs, el: Elections, leader: Log, log: Log, prev: nat, next: nat)
    requires HistoryInv(h, el) && GoodLog(h, leader) && GoodLog(h, log) && 1 <= prev <= |log|
    requires NextAfterRefusal(leader, log, prev, next) && 2 <= next <= prev && next <= |leader| + 1
    requires leader[next - 2].term != log[next - 2].term
    ensures forall i :: 0 <= i < next - 1 ==> log[i].term != log[prev - 1].term
  {
    hide HistoryInv, GoodLog;
    forall i: nat | i < next - 1
      ensures log[i].term != log[prev - 1].term
    {
      TermsNondecreasing(h, el, log, i, next - 2);
      TermsNondecreasing(h, el, log, next - 2, prev - 1);
    }
  }

  lemma {:induction false} ConflictsBounded(h: LeaderLogs, el: Elections, sv: Server, self: nat, f: Server, next: nat)
    requires HistoryInv(h, el) && GoodLog(h, sv.log) && GoodLog(h, f.log)
    requires 1 <= next <= |sv.log| + 1 && next <= |f.log| + 1
    ensures Refusals(h, el, sv, self, f, next) <= |TermsIn(f.log, CommonLength(sv.log, f.log, 0), next - 1)|
    decreases next
  {
    hide GoodLog, HistoryInv, CommonLength, TermsIn, Backup, Refusal, NextAfterRefusal;
    var p, req := CommonLength(sv.log, f.log, 0), Ask(sv, self, next);
    MatchesUpToCommon(h, sv, self, f.log, next);
    if !Matches(f.log, req) {
      SomeTerm(f.log, p, next - 1);
      FastBackupIsSound(h, el, sv.log, f, req, p);
      RefusalDisposesOfTerm(h, el, sv.log, f, req);
      var next' := Backup(sv.log, Refusal(f, req));
      ConflictsBounded(h, el, sv, self, f, next');
      if !Matches(f.log, Ask(sv, self, next')) {
        NextConflictIsEarlier(h, el, sv.log, f.log, next - 1, next');
        OneTermLess(f.log, p, next' - 1, next - 1);
      }
    }
  }

  /**
   * Fast backup takes at most one refusal for each term in the follower's log beyond the common
   * prefix, and one more if that log is too short for the first request.
   */
  lemma RefusalsBounded(h: LeaderLogs, el: Elections, sv: Server, self: nat, f: Server, next: nat)
    requires HistoryInv(h, el) && GoodLog(h, sv.log) && GoodLog(h, f.log) && 1 <= next <= |sv.log| + 1
    ensures Refusals(h, el, sv, self, f, next) <=
            |TermsIn(f.log, CommonLength(sv.log, f.log, 0), |f.log|)| + if next > |f.log| + 1 then 1 else 0
  {
    hide GoodLog, HistoryInv, CommonLength, TermsIn, Backup, Refusal;
    var p, req := CommonLength(sv.log, f.log, 0), Ask(sv, self, next);
    if next <= |f.log| + 1 {
      ConflictsBounded(h, el, sv, self, f, next);
      FewerTerms(f.log, p, next - 1);
    } else if !Matches(f.log, req) {
      FastBackupIsSound(h, el, sv.log, f, req, p);
      RefusalDisposesOfTerm(h, el, sv.log, f, req);
      ConflictsBounded(h, el, sv, self, f, |f.log| + 1);
    }
  }

  lemma FewerTerms(log: Log, p: nat, k: nat)
    requires k <= |log|
    ensures |TermsIn(log, p, k)| <= |TermsIn(log, p, |log|)|
  {
    Subset(TermsIn(log, p, k), TermsIn(log, p, |log|));
  }
}
