/** The replicated document: deduplication, catch-up and the append-only revision log. */
module DocumentFsm {
  import opened Sequences
  import opened Changesets
  import opened Follows
  import opened Histories

  datatype Submission = Submission(clientId: string, submissionId: int, baseRev: int, changeset: Changeset)

  datatype Revision = Revision(revNumber: int, changeset: Changeset, source: string)

  datatype Outcome =
    | Rejected
    | Duplicate(newRev: int)
    | Accepted(cPrime: Changeset, newRev: int)

  /** The state of one replica's document. */
  datatype Doc = Doc(headText: string, headRev: int, log: seq<Revision>, lastSub: map<string, int>)

  datatype Applied = Applied(doc: Doc, outcome: Outcome)

  function NewDoc(text: string): Doc {
    Doc(text, 0, [], map[])
  }

  function Changes(log: seq<Revision>): (cs: seq<Changeset>)
    ensures |cs| == |log|
    ensures forall i :: 0 <= i < |log| ==> cs[i] == log[i].changeset
  {
    seq(|log|, i requires 0 <= i < |log| => log[i].changeset)
  }

  predicate WellFormed(d: Doc) {
    d.headRev == |d.log| && AllPositive(Changes(d.log))
  }

  predicate IsDuplicate(d: Doc, e: Submission) {
    e.clientId in d.lastSub && e.submissionId <= d.lastSub[e.clientId]
  }

  /** The logged changesets a submission has not seen. */
  function Missed(d: Doc, e: Submission): (cs: seq<Changeset>)
    requires 0 <= e.baseRev
    ensures WellFormed(d) ==> AllPositive(cs)
  {
    if e.baseRev <= |d.log| then Changes(d.log)[e.baseRev..] else []
  }

  /** One committed entry, as a function of the document state. */
  function ApplyEntry(d: Doc, e: Submission): (r: Applied)
    requires WellFormed(d) && Positive(e.changeset.ops) && 0 <= e.baseRev
    ensures WellFormed(r.doc)
  {
    if IsDuplicate(d, e) then Applied(d, Duplicate(d.headRev))
    else
      var c := CatchUp(e.changeset, Missed(d, e));
      match Apply(d.headText, c)
      case None => Applied(d, Rejected)
      case Some(text) =>
        var rec := Revision(d.headRev, c, e.clientId);
        ChangesSnoc(d.log, rec);
        Applied(Doc(text, d.headRev + 1, d.log + [rec], d.lastSub[e.clientId := e.submissionId]),
                Accepted(c, d.headRev + 1))
  }

  lemma ChangesSnoc(log: seq<Revision>, r: Revision)
    ensures Changes(log + [r]) == Changes(log) + [r.changeset]
  {
  }

  lemma ChangesPrefix(log: seq<Revision>, k: nat)
    requires k <= |log|
    ensures Changes(log[..k]) == Changes(log)[..k]
    ensures Changes(log[k..]) == Changes(log)[k..]
  {
  }

  /** The state machine object of the server. */
  class DocumentStateMachine {
    var headText: string
    var headRev: int
    var revisionLog: seq<Revision>
    var clientLastSubmission: map<string, int>

    ghost function Model(): Doc
      reads this
    {
      Doc(headText, headRev, revisionLog, clientLastSubmission)
    }

    ghost predicate Valid()
      reads this
    {
      WellFormed(Model())
    }

    constructor (initialText: string)
      ensures Valid() && Model() == NewDoc(initialText)
    {
      headText, headRev, revisionLog, clientLastSubmission := initialText, 0, [], map[];
    }

    method Apply(e: Submission) returns (r: Outcome)
      requires Valid() && Positive(e.changeset.ops) && 0 <= e.baseRev
      modifies this
      ensures Valid() && Applied(Model(), r) == ApplyEntry(old(Model()), e)
    {
      hide CatchUp, Follow, Run;
      ghost var d := Model();
      if e.clientId in clientLastSubmission && e.submissionId <= clientLastSubmission[e.clientId] {
        return Duplicate(headRev);
      }
      var c := e.changeset;
      var rev := e.baseRev;
      ghost var cs := Changes(revisionLog);
      while rev < headRev
        invariant e.baseRev <= rev && (rev <= headRev || rev == e.baseRev) && Positive(c.ops)
        invariant Model() == d
        invariant CatchUp(c, if rev <= headRev then cs[rev..] else []) == CatchUp(e.changeset, Missed(d, e))
      {
        CatchUpStep(c, cs, rev);
        c := ComputeFollow(revisionLog[rev].changeset, c);
        rev := rev + 1;
      }
      CatchUpDone(c);
      var newText := ApplyChangeset(headText, c);
      if newText.None? {
        return Rejected;
      }
      var rec := Revision(headRev, c, e.clientId);
      ChangesSnoc(revisionLog, rec);
      revisionLog := revisionLog + [rec];
      headText := newText.value;
      headRev := headRev + 1;
      clientLastSubmission := clientLastSubmission[e.clientId := e.submissionId];
      return Accepted(c, headRev);
    }

    method RevisionsSince(fromRev: nat) returns (r: seq<Revision>)
      requires Valid()
      ensures r == if fromRev <= |revisionLog| then revisionLog[fromRev..] else []
    {
      if fromRev >= |revisionLog| {
        return [];
      }
      return revisionLog[fromRev..];
    }
  }

  lemma CatchUpStep(c: Changeset, cs: seq<Changeset>, rev: nat)
    requires Positive(c.ops) && AllPositive(cs) && rev < |cs|
    ensures Positive(Follow(cs[rev], c).ops)
    ensures CatchUp(c, cs[rev..]) == CatchUp(Follow(cs[rev], c), cs[rev + 1..])
  {
    DropDrop(cs, rev, 1);
  }

  lemma CatchUpDone(c: Changeset)
    requires Positive(c.ops)
    ensures CatchUp(c, []) == c
  {
  }

  // ------------------------------------------------------------ replay and acceptance

  /** The head is the replay of the log from the initial text. */
  ghost predicate Replays(t: string, d: Doc) {
    && WellFormed(d)
    && Chained(t, Changes(d.log)) && TextAfter(t, Changes(d.log)) == d.headText
    && (forall i :: 0 <= i < |d.log| ==> d.log[i].revNumber == i)
  }

  /** The text at a revision, and the log from there on, give the head. */
  ghost function TextAt(t: string, d: Doc, rev: nat): (s: string)
    requires Replays(t, d) && rev <= |d.log|
    ensures Chained(s, Changes(d.log[rev..])) && TextAfter(s, Changes(d.log[rev..])) == d.headText
  {
    ChangesPrefix(d.log, rev);
    ChainSplit(t, Changes(d.log), rev);
    TextAfter(t, Changes(d.log)[..rev])
  }

  /** Every entry that passes Validate keeps the replay, whatever base it claims; the log only grows. */
  lemma ApplyKeepsReplay(t: string, d: Doc, e: Submission)
    requires Replays(t, d) && Valid(e.changeset) && 0 <= e.baseRev
    ensures Replays(t, ApplyEntry(d, e).doc)
    ensures d.log <= ApplyEntry(d, e).doc.log
  {
    hide Run, CatchUp;
    var r := ApplyEntry(d, e);
    if r.outcome.Accepted? {
      var c := CatchUp(e.changeset, Missed(d, e));
      CatchUpDeclares(e.changeset, Missed(d, e));
      ChangesSnoc(d.log, Revision(d.headRev, c, e.clientId));
      ChainOne(d.headText, c);
      ChainConcat(t, Changes(d.log), [c]);
    }
  }

  /**
   * Every outcome but a rejection names the revision that is the head afterwards, and that is its
   * text; only an accepted entry adds one, the newest, and under its author.
   */
  lemma OutcomeNamesHead(t: string, d: Doc, e: Submission)
    requires Replays(t, d) && Valid(e.changeset) && 0 <= e.baseRev
    ensures var r := ApplyEntry(d, e);
            Replays(t, r.doc) && match r.outcome
              case Rejected => r.doc == d
              case Duplicate(rev) => r.doc == d && rev == |d.log| && TextAt(t, r.doc, rev) == r.doc.headText
              case Accepted(c, rev) =>
                && rev == |d.log| + 1 == |r.doc.log| && TextAt(t, r.doc, rev) == r.doc.headText
                && r.doc.log[|d.log|].changeset == c && r.doc.log[|d.log|].source == e.clientId
  {
    hide Run, CatchUp;
    ApplyKeepsReplay(t, d, e);
    HeadTextAt(t, ApplyEntry(d, e).doc);
  }

  /** A new entry for a revision nobody has yet is taken as it is, if it is as long as the head. */
  lemma EntryAheadIsTakenAsItIs(d: Doc, e: Submission)
    requires WellFormed(d) && Valid(e.changeset) && e.baseRev >= d.headRev && !IsDuplicate(d, e)
    ensures var r := ApplyEntry(d, e).outcome;
            if e.changeset.oldLen == |d.headText| then r == Accepted(e.changeset, d.headRev + 1) else r.Rejected?
  {
    ValidLengths(e.changeset);
    assert Missed(d, e) == [];
    CatchUpDone(e.changeset);
  }

  lemma HeadTextAt(t: string, d: Doc)
    requires Replays(t, d)
    ensures TextAt(t, d, |d.log|) == d.headText
  {
    Whole(Changes(d.log));
  }

  /** A valid, new submission made for a revision of the document is always accepted. */
  lemma FittingEntryAccepted(t: string, d: Doc, e: Submission)
    requires Replays(t, d) && Valid(e.changeset) && 0 <= e.baseRev <= d.headRev && !IsDuplicate(d, e)
    requires e.changeset.oldLen == |TextAt(t, d, e.baseRev)|
    ensures ApplyEntry(d, e).outcome.Accepted?
  {
    hide Run, CatchUp;
    ChangesPrefix(d.log, e.baseRev);
    CatchUpFits(TextAt(t, d, e.baseRev), e.changeset, Missed(d, e));
    ValidLengths(CatchUp(e.changeset, Missed(d, e)));
  }

  /** What the cluster commits: changesets that pass Validate, made for some revision number. */
  predicate Sound(e: Submission) {
    Valid(e.changeset) && 0 <= e.baseRev
  }

  predicate Committable(es: seq<Submission>) {
    forall i :: 0 <= i < |es| ==> Sound(es[i])
  }

  /** A whole committed log. */
  function ApplyLog(d: Doc, es: seq<Submission>): (r: Doc)
    requires WellFormed(d) && Committable(es)
    ensures WellFormed(r)
    decreases es
  {
    if es == [] then d else ApplyLog(ApplyEntry(d, es[0]).doc, es[1..])
  }

  lemma {:induction false} ApplyLogConcat(d: Doc, x: seq<Submission>, y: seq<Submission>)
    requires WellFormed(d) && Committable(x) && Committable(y)
    ensures Committable(x + y)
    ensures ApplyLog(d, x + y) == ApplyLog(ApplyLog(d, x), y)
    decreases x
  {
    hide ApplyEntry;
    if x == [] {
      Whole(y);
    } else {
      SliceConcat(x, y, 1);
      ApplyLogConcat(ApplyEntry(d, x[0]).doc, x[1..], y);
    }
  }

  /** Over every run from a fresh document, the head is the replay of the log, which only grows. */
  lemma {:induction false} RunKeepsReplay(t: string, d: Doc, es: seq<Submission>)
    requires Replays(t, d) && Committable(es)
    ensures Replays(t, ApplyLog(d, es))
    ensures d.log <= ApplyLog(d, es).log
    decreases es
  {
    hide ApplyEntry, Replays;
    assert WellFormed(d) by { ReplaysWellFormed(t, d); }
    if es != [] {
      ApplyKeepsReplay(t, d, es[0]);
      RunKeepsReplay(t, ApplyEntry(d, es[0]).doc, es[1..]);
    }
  }

  lemma ReplaysWellFormed(t: string, d: Doc)
    requires Replays(t, d)
    ensures WellFormed(d)
  {
  }

  lemma FreshReplays(t: string)
    ensures Replays(t, NewDoc(t))
  {
  }

  // ------------------------------------------------------------ the ladder of a document

  /** No submission has adjacent insertions; the repository's own producers make only such. */
  predicate AllSubmittedSeparated(es: seq<Submission>) {
    forall i :: 0 <= i < |es| ==> NoAdjacentInserts(es[i].changeset.ops)
  }

  lemma ApplyKeepsSeparated(d: Doc, e: Submission)
    requires WellFormed(d) && Sound(e) && AllSeparated(Changes(d.log)) && NoAdjacentInserts(e.changeset.ops)
    ensures AllSeparated(Changes(ApplyEntry(d, e).doc.log))
  {
    hide CatchUp, Run;
    var c := CatchUp(e.changeset, Missed(d, e));
    CatchUpSeparated(e.changeset, Missed(d, e));
    ChangesSnoc(d.log, Revision(d.headRev, c, e.clientId));
  }

  /** Committing such submissions only ever logs such revisions. */
  lemma {:induction false} RunKeepsSeparated(d: Doc, es: seq<Submission>)
    requires WellFormed(d) && Committable(es) && AllSeparated(Changes(d.log)) && AllSubmittedSeparated(es)
    ensures AllSeparated(Changes(ApplyLog(d, es).log))
    decreases es
  {
    if es != [] {
      ApplyKeepsSeparated(d, es[0]);
      hide ApplyEntry;
      RunKeepsSeparated(ApplyEntry(d, es[0]).doc, es[1..]);
    }
  }

  /** What is logged: the new head is the base with the submission, then the log transformed past it. */
  ghost predicate Laddered(t: string, d: Doc, e: Submission)
    requires Replays(t, d) && Valid(e.changeset) && 0 <= e.baseRev <= d.headRev
    requires e.changeset.oldLen == |TextAt(t, d, e.baseRev)|
  {
    var base, seen, a := TextAt(t, d, e.baseRev), Changes(d.log)[e.baseRev..], ApplyEntry(d, e);
    && a.outcome == Accepted(CatchUp(e.changeset, seen), d.headRev + 1)
    && Chained(Run(base, e.changeset.ops), Transformed(e.changeset, seen))
    && a.doc.headText == TextAfter(Run(base, e.changeset.ops), Transformed(e.changeset, seen))
  }

  /** The ladder for every document and every new entry that fits, as far as ties agree. */
  lemma DocumentLadder(t: string, d: Doc, e: Submission)
    requires Replays(t, d) && Valid(e.changeset) && 0 <= e.baseRev <= d.headRev && !IsDuplicate(d, e)
    requires e.changeset.oldLen == |TextAt(t, d, e.baseRev)| && TiesAlong(e.changeset, Missed(d, e))
    ensures Laddered(t, d, e)
  {
    FittingEntryAccepted(t, d, e);
    hide Run, CatchUp, TiesAlong, Transformed;
    ChangesPrefix(d.log, e.baseRev);
    CatchUpLadder(TextAt(t, d, e.baseRev), e.changeset, Missed(d, e));
  }

  /** A document that started from `t` and was fed `es`. */
  ghost function DocumentAfter(t: string, es: seq<Submission>): (d: Doc)
    requires Committable(es)
    ensures Replays(t, d)
  {
    FreshReplays(t);
    RunKeepsReplay(t, NewDoc(t), es);
    ApplyLog(NewDoc(t), es)
  }

  /** Over every run of submissions without adjacent insertions the ladder holds at every revision. */
  lemma RunLadder(t: string, es: seq<Submission>, e: Submission)
    requires Committable(es) && AllSubmittedSeparated(es) && NoAdjacentInserts(e.changeset.ops)
    requires var d := DocumentAfter(t, es);
             && Valid(e.changeset) && 0 <= e.baseRev <= d.headRev && !IsDuplicate(d, e)
             && e.changeset.oldLen == |TextAt(t, d, e.baseRev)|
    ensures Laddered(t, DocumentAfter(t, es), e)
  {
    hide ApplyLog, TextAt, CatchUp, Laddered, Replays;
    var d := DocumentAfter(t, es);
    RunKeepsSeparated(NewDoc(t), es);
    ReplaysWellFormed(t, d);
    SeparatedTiesAlong(e.changeset, Missed(d, e));
    DocumentLadder(t, d, e);
  }

  // ------------------------------------------------------------ deduplication

  /** The outcome of the entry at position `i` of a committed log. */
  function OutcomeAt(d: Doc, es: seq<Submission>, i: nat): (r: Outcome)
    requires WellFormed(d) && Committable(es) && i < |es|
  {
    ApplyEntry(ApplyLog(d, es[..i]), es[i]).outcome
  }

  lemma LastSubGrows(d: Doc, e: Submission)
    requires WellFormed(d) && Valid(e.changeset) && 0 <= e.baseRev
    ensures forall c :: c in d.lastSub ==>
              c in ApplyEntry(d, e).doc.lastSub && d.lastSub[c] <= ApplyEntry(d, e).doc.lastSub[c]
    ensures ApplyEntry(d, e).outcome.Accepted? ==> IsDuplicate(ApplyEntry(d, e).doc, e)
  {
  }

  lemma {:induction false} LastSubGrowsOverRun(d: Doc, es: seq<Submission>, e: Submission)
    requires WellFormed(d) && Committable(es) && IsDuplicate(d, e)
    ensures IsDuplicate(ApplyLog(d, es), e)
    decreases es
  {
    if es != [] {
      LastSubGrows(d, es[0]);
      hide ApplyEntry;
      LastSubGrowsOverRun(ApplyEntry(d, es[0]).doc, es[1..], e);
    }
  }

  /** Exactly once: after an accepted submission, no later copy of it changes anything. */
  lemma ResentCopyIsSkipped(d: Doc, e: Submission, between: seq<Submission>, copy: Submission, later: seq<Submission>)
    requires WellFormed(d) && Sound(e) && Committable(between) && Sound(copy) && Committable(later)
    requires ApplyEntry(d, e).outcome.Accepted?
    requires copy.clientId == e.clientId && copy.submissionId <= e.submissionId
    ensures Committable([e] + between + [copy] + later) && Committable([e] + between + later)
    ensures ApplyLog(d, [e] + between + [copy] + later) == ApplyLog(d, [e] + between + later)
  {
    LastSubGrows(d, e);
    ApplyLogOne(d, e);
    var d1 := ApplyEntry(d, e).doc;
    LastSubGrowsOverRun(d1, between, copy);
    var d2 := ApplyLog(d1, between);
    ApplyLogOne(d2, copy);
    assert ApplyEntry(d2, copy).doc == d2;
    hide ApplyEntry, ApplyLog, IsDuplicate;
    ApplyLogConcat(d, [e], between);
    ApplyLogConcat(d, [e] + between, [copy]);
    ApplyLogConcat(d, [e] + between + [copy], later);
    ApplyLogConcat(d, [e] + between, later);
  }

  lemma ApplyLogOne(d: Doc, e: Submission)
    requires WellFormed(d) && Sound(e)
    ensures ApplyLog(d, [e]) == ApplyEntry(d, e).doc
  {
  }

  /** Per client, the accepted submission ids strictly increase over every run. */
  lemma AcceptedIdsIncrease(d: Doc, es: seq<Submission>, i: nat, j: nat)
    requires WellFormed(d) && Committable(es) && i < j < |es| && es[i].clientId == es[j].clientId
    requires OutcomeAt(d, es, i).Accepted? && OutcomeAt(d, es, j).Accepted?
    ensures es[i].submissionId < es[j].submissionId
  {
    var di := ApplyLog(d, es[..i]);
    LastSubGrows(di, es[i]);
    ApplyLogOne(di, es[i]);
    hide ApplyLog;
    LastSubGrowsOverRun(ApplyEntry(di, es[i]).doc, es[i + 1..j], es[i]);
    PrefixSnoc(es, i);
    MiddleSplit(es, i + 1, j);
    ApplyLogConcat(d, es[..i], [es[i]]);
    ApplyLogConcat(d, es[..i + 1], es[i + 1..j]);
  }

  /** A committed log without the entries that were skipped as duplicates. */
  function WithoutDuplicates(d: Doc, es: seq<Submission>): (r: seq<Submission>)
    requires WellFormed(d) && Committable(es)
    ensures Committable(r) && |r| <= |es|
    decreases es
  {
    if es == [] then []
    else
      var a := ApplyEntry(d, es[0]);
      (if a.outcome.Duplicate? then [] else [es[0]]) + WithoutDuplicates(a.doc, es[1..])
  }

  /** Deduplication erasure: the skipped entries leave no trace in the final state. */
  lemma {:induction false} DuplicatesLeaveNoTrace(d: Doc, es: seq<Submission>)
    requires WellFormed(d) && Committable(es)
    ensures ApplyLog(d, WithoutDuplicates(d, es)) == ApplyLog(d, es)
    decreases es
  {
    if es != [] {
      var a := ApplyEntry(d, es[0]);
      var rest := WithoutDuplicates(a.doc, es[1..]);
      DuplicatesLeaveNoTrace(a.doc, es[1..]);
      if a.outcome.Duplicate? {
        Whole(rest);
      } else {
        Cons([es[0]] + rest);
        assert ([es[0]] + rest)[1..] == rest;
      }
    }
  }

  /** A submission rebased by its client to a later base commits as the same revision. */
  lemma RebasedCopyCommitsAlike(d: Doc, e: Submission, base: nat)
    requires WellFormed(d) && Valid(e.changeset) && 0 <= e.baseRev <= base <= d.headRev
    ensures var seen := Changes(d.log)[e.baseRev..base];
            && Positive(CatchUp(e.changeset, seen).ops)
            && ApplyEntry(d, e.(baseRev := base, changeset := CatchUp(e.changeset, seen))) == ApplyEntry(d, e)
  {
    var cs := Changes(d.log);
    MiddleSplit(cs, e.baseRev, base);
    CatchUpConcat(e.changeset, cs[e.baseRev..base], cs[base..]);
  }
}
