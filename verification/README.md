# A verified model of the collaborative editor

The repository is a collaborative text editor: browsers edit one document with the EasySync
operational transformation, and a cluster of servers agrees on the order of edits with its own
Raft implementation. The two meet at the document state machine, which every server feeds with
the entries its log commits. This project models both halves and their meeting point in Dafny.

## How it is organised

**The document.** `Changesets` gives operation lists and their meaning (`Run`); `OpLists` the
cursors and the merging append that `Follow` and `Compose` share; `Follow.dfy`, `Compose.dfy` and
`Diff.dfy` the three algorithms, each as the source's loop over cursors or a table and as a
recursive function the loop computes. `Convergence` proves the law `Follow` exists for,
`TieBreak.dfy` what goes first at one place, `DiffShape.dfy` which of the minimal diffs is chosen. `Histories`
folds `Follow` over a stretch of the revision log, `DocumentFsm` is the server's state machine,
`Client.dfy` the browser's, `Session.dfy` whole runs of one against the other and `Screens` what the
browser shows in them. `BrowserText` is the browser's way of applying a changeset, `KeptUnits` what
the two orders of a pair of changesets have in common even where they diverge, `LadderExample` a
history of two revisions. `RuneDiff.dfy` is the server's diff over runes measured in bytes.

**The cluster.** `LogStore` and `RaftNode` are the server as the source writes it: an object whose
handlers update its fields and its log store. Each handler is proved equal to a function in
`RaftServer`. `RaftSystem` lets numbered servers take those functions as steps, with a growing set
of messages from which any may be delivered late, twice, out of order or never, and with crashes,
including one between the two writes of the persistent state, one after a persisted step-down and
one between cutting a conflict and storing the new entries. `RaftInvariant` is what every step
keeps; `RaftSteps`, `RaftGrowth`, `RaftLeaders`, `RaftFollowers` and `RaftTransitions` prove that it
does; `RaftSafety`, `RaftQuorum`,
`RaftRuns`, `RaftVotes`, `RaftElections`, `RaftOrigins`, `RaftBackup`, `RaftReplication` and
`RaftProgress` draw the conclusions, and `RaftExample` exhibits two runs.

**Together.** `ReplicatedDocument` runs a document on every server of the cluster and proves that
all of them are prefixes of one history; `HostedSessions` runs a browser and the server it is
connected to together.

## Main results

- On all valid changesets of one document rebasing converges if and only if the tied inserts merge
  to the same text both ways; without adjacent inserts they always do, and a two-insert
  counterexample shows that the condition is not idle. Of two texts inserted at one place the one
  that comes first in the dictionary stands on the left, whoever rebases.
- `Follow` and `Compose` end on all input with positive lengths, and on valid input give valid,
  fully merged results; `Compose` has the meaning of its two arguments in sequence; the diff is
  correct, retains as much as any changeset between the two texts can, and is the identity exactly
  for equal texts. Of the minimal diffs it is one that keeps a common tail and deletes before it
  inserts.
- A browser's confirmed text is the server's text at the browser's revision in every state of every
  run, and so on every server of the cluster; at the acknowledgement its rebased `X` is, operation
  for operation, the revision the server logged. A browser that connects to a server of the cluster
  stays on that server's document for as long as the server stays up.
- The screen invariant of section 11.4 of the EasySync manual holds after a broadcast if and only if
  the broadcast and `X` tie alike both ways, whatever has been typed beyond `X`, for every broadcast
  of every run. Over runs in which the other clients submit no adjacent inserts it always holds; a
  run with adjacent inserts breaks it. Only typing and other clients' broadcasts change the screen:
  submissions and acknowledgements, however much is typed meanwhile, leave it and the invariant alone.
- Over every run of the cluster: one leader per term, Log Matching, Leader Completeness, and State
  Machine Safety, each between any two servers at any two moments.
- A server may vote twice in a term, as a run shows. It loses a vote within a term exactly when it is
  a candidate reached by an append request of that term; a vote for another always stands.
- A server votes for a candidate exactly when it is free to in the term and its log is not ahead:
  its last entry is not of a later term, and it does not go on where the candidate's log ends. Of two
  free servers at least one gets the other's vote, both exactly if their logs are equal, and every
  quorum has a member for which all its free members would vote.
- No term is ever skipped, and every message carries what its sender had when it sent it: a follower
  that accepts ends with the greater of its own commit index and its leader's at that moment.
- Fast conflict backup ends where decrement-by-one ends, after at most one refusal for each term in
  the follower's log beyond the common prefix and one for a log that is too short; and taking the
  smaller of the leader's commit index and one's own last index never commits less than the former,
  nor anything the leader does not hold.
- Of the documents of any two servers at any two moments, one revision log is a prefix of the other.

Names: `Canonical` means valid and with no two neighbouring operations of one type. A `Sys` carries
history variables (elections, each leader's log, votes, acknowledgements, commits, applied entries)
that no handler reads. The main theorems of `RaftRuns` and `ReplicatedDocument` speak of the servers
alone, except `RunSupportersStand`, which is about the recorded quorum, and
`RunStateMachineSafety`, which is about the recorded set of applied entries;
`RaftReplication.RunFollowerCommitSafety` speaks of the recorded log of a term's leader, which
`RunLeaderHistory` ties to that leader.

Where code and documentation differ the code is modelled: the manual's merge law is stated for all
changesets and holds for those the repository's own producers build; `Follow` and `Compose` never
return an error, whatever their comments ask of the lengths; and step-down within a term clears
`votedFor`, so "each server votes for at most one candidate per term" is not true of the code.

## Model

| member | source | states |
|---|---|---|
| `Changesets.ApplyChangeset` | internal/ot/apply.go:18-73 | on every changeset with a non-negative declared result length the loop yields what its pass from position 0 does, and nothing for a negative one; without negative lengths it succeeds exactly when the declared and the consumed length are the text's, and then yields the text the operations describe |
| `Changesets.NegativeDeleteWalksBack` | internal/ot/apply.go:49-57 | a changeset with a negative Delete that Validate refuses and the pass applies |
| `Changesets.Validate` | internal/ot/changeset.go:138-170 | accepts exactly the changesets with positive lengths whose declared lengths are true |
| `Changesets.IdentityIsIdentity` | internal/ot/changeset.go:55-82 | among valid changesets exactly `Identity(n)` is recognised, and it leaves every text alone |
| `Changesets.TextToChangeset` | internal/ot/changeset.go:86-96 | a canonical changeset that builds the text from the empty document |
| `OpLists.OpCursor.Peek` | internal/ot/follow.go:44-55 | shows the head of what is left, none exactly at the end |
| `OpLists.OpCursor.Consume` | internal/ot/follow.go:57-75 | leaves exactly the operations that remain after so many units, across operation borders |
| `OpLists.AddOp` | internal/ot/follow.go:78-105 | keeps the list merged and its lengths positive |
| `OpLists.AddOpMeaning` | internal/ot/compose.go:32-50 | merging into the last operation changes neither lengths nor meaning |
| `OpLists.AddAllMeaning` | internal/ot/compose.go:32-50 | the same for a whole list, by induction |
| `Follows.Builder.Add` | internal/ot/follow.go:78-105 | appends or merges, and keeps the result length up to date |
| `Follows.ComputeFollow` | internal/ot/follow.go:29-189 | the two-cursor loop ends on all input with positive lengths and computes the recursive rebase |
| `Follows.FollowEnds` | internal/ot/follow.go:110-159 | when the loop stops everything is written, and for changesets of one document both cursors are exhausted |
| `Follows.LexTotal` | internal/ot/follow.go:118-136 | the tie-break order is total, and ties both ways only for equal texts |
| `TieBreaks.LexIsBefore` | internal/ot/follow.go:118-136 | the comparison puts a text before another if and only if it is a prefix of it or smaller at the first difference |
| `TieBreaks.PrefixGoesFirst` | internal/ot/follow.go:118-136 | a text goes before whatever extends it, and never behind |
| `TieBreaks.FirstDifferenceDecides` | internal/ot/follow.go:118-136 | the first difference decides, whatever follows it |
| `TieBreaks.RebasedInsert` | web/client.js:185-205 | an insertion rebased past another at the same place of any document goes behind it exactly when that one comes first in the dictionary, equal texts included |
| `TieBreaks.TiedInsertsInOrder` | internal/ot/follow.go:118-160 | in both orders two texts inserted at one place stand in dictionary order |
| `Convergence.ConvergesExactlyWhenTiesAgree` | internal/ot/follow.go:110-186 | the two orders of two concurrent lists give one text if and only if the inserts tied at each gap merge alike both ways |
| `Convergence.CanonicalTiesAgree` | internal/ot/follow.go:118-136 | without adjacent inserts they always do, equal texts included |
| `Convergence.FollowIsCanonical` | internal/ot/follow.go:77-105 | the rebased changeset is valid, reads A's result and has no adjacent operations of one type |
| `Convergence.FollowMeaning` | internal/ot/follow.go:29-189 | A then the rebased B yields the text of the merge walk |
| `Convergence.FollowConvergesExactlyWhenTiesAgree` | internal/ot/follow.go:1-189 | for all texts and all valid changesets of one document, A then Follow(A,B) equals B then Follow(B,A) if and only if the ties agree; both sides always fit and declare equal lengths |
| `Convergence.FollowConverges` | internal/ot/follow.go:1-11 | A then Follow(A,B) equals B then Follow(B,A), for all texts and all valid changesets without adjacent inserts |
| `Convergence.FollowIdentity` | internal/ot/follow.go:166-182 | the identity rebased past anything is the identity |
| `Convergence.AdjacentInsertsDiverge` | internal/ot/follow.go:125-127 | two valid changesets on the empty document for which applying and following yields "bab" one way and "bba" the other |
| `Composition.ComputeCompose` | internal/ot/compose.go:28-161 | the loop with partial consumption of both cursors ends and computes the recursive composition |
| `Composition.ComposeEnds` | internal/ot/compose.go:97-124 | when the loop stops everything is written, and for fitting changesets both cursors are exhausted |
| `Composition.ComposeMeaning` | internal/ot/compose.go:97-158 | for fitting changesets the result is canonical, declares true lengths and means A then B |
| `TieBreaks.ComposedInsertGoesFirst` | internal/ot/compose.go:97-112 | in a composition what B inserts goes before what A deleted at that place |
| `Diffs.FillTable` | internal/ot/diff.go:18-36 | every cell of the table is the longest common subsequence of its two prefixes, of runes or of units |
| `Diffs.Backtrack` | internal/ot/diff.go:38-59 | the walk back yields the segments of the diff in reverse |
| `Diffs.Reverse` | internal/ot/diff.go:61-64 | reversal in place |
| `Diffs.ComputeSegs` | internal/ot/diff.go:13-64 | table, walk and reversal compute the segments in document order |
| `Diffs.ComputeDiff` | web/client.js:238-280 | the browser's diff, in its own units |
| `Diffs.KeptIsCommon` | internal/ot/diff.go:11-13 | no changeset retains more than the longest common subsequence of its source and its result |
| `Diffs.DiffIsMinimal` | web/client.js:238-280 | applied to the old text it gives the new one, retains exactly the table's corner, and no valid changeset between the texts retains more |
| `Diffs.DiffIsIdentityExactlyWhenEqual` | web/client.js:34-42 | the diff is the identity if and only if the texts are equal |
| `DiffShapes.TailIsRetained` | web/client.js:238-280 | the diff of two texts with a common tail is the diff without it, then retains the tail |
| `RuneDiffs.ComputeRuneDiff` | internal/ot/diff.go:13-101 | the server's diff: runes compared, bytes of their encoding counted |
| `RuneDiffs.RuneDiffIsMinimal` | internal/ot/diff.go:11-101 | in bytes it is canonical and turns the old text into the new; it keeps as many runes as the table's corner, and no rune-by-rune edit between the texts keeps more |
| `RuneDiffs.RuneDiffIsIdentityExactlyWhenEqual` | internal/ot/changeset.go:69-82 | for an encoding that tells texts apart, the diff is the identity if and only if the texts are equal |
| `DiffShapes.ReplacementsDeleteFirst` | internal/ot/diff.go:38-59 | in both diffs no deletion directly follows an insertion |
| `Histories.CatchUpFits` | internal/fsm/fsm.go:116-126 | a changeset that fits the base, caught up, is valid and fits the head |
| `Histories.CatchUpDeclares` | internal/fsm/fsm.go:116-126 | catch-up keeps the declared result length true, even from a base that does not fit |
| `Histories.CatchUpLadder` | internal/fsm/fsm.go:116-126 | head then C' equals base then C then the log transformed past the partly rebased C, for every valid C and log whose ties agree rung by rung |
| `Histories.OneRungExactlyWhenTiesAgree` | internal/fsm/fsm.go:116-126 | across a single revision the ladder closes if and only if the ties agree |
| `LadderExample.LadderMayCloseAllTheSame` | internal/fsm/fsm.go:116-126 | across several revisions agreeing ties are sufficient and not necessary: a history whose first rung diverges and whose second deletes the difference |
| `Histories.TransformedFits` | internal/fsm/fsm.go:116-126 | the transformed log can be applied after C whatever the ties |
| `DocumentFsm.DocumentStateMachine.constructor` | internal/fsm/fsm.go:52-61 | the fresh state |
| `DocumentFsm.DocumentStateMachine.Apply` | internal/fsm/fsm.go:81-172 | deduplication, the catch-up loop, rejection and append compute `ApplyEntry`, and keep revision count and log together |
| `DocumentFsm.DocumentStateMachine.RevisionsSince` | internal/fsm/fsm.go:193-203 | the tail of the log, empty beyond the end |
| `DocumentFsm.TextAt` | internal/fsm/fsm.go:193-203 | the text at a revision followed by the revisions since gives the head |
| `DocumentFsm.ApplyKeepsReplay` | internal/fsm/fsm.go:81-172 | every entry that passes Validate, whatever base it claims, keeps the head the replay of the log, which only grows |
| `DocumentFsm.FittingEntryAccepted` | internal/fsm/fsm.go:115-151 | a valid, new entry made for a real revision of matching length is always accepted |
| `DocumentFsm.OutcomeNamesHead` | internal/fsm/fsm.go:92-171 | every outcome but a rejection names the head revision afterwards, whose text is the head; an accepted entry is that revision's changeset under its author, anything else changes nothing |
| `DocumentFsm.EntryAheadIsTakenAsItIs` | internal/fsm/fsm.go:116-139 | a new entry for a revision not below the head is accepted unchanged if it is as long as the head, and rejected otherwise |
| `DocumentFsm.RunKeepsSeparated` | internal/fsm/fsm.go:116-151 | submissions without adjacent inserts only ever log revisions without them |
| `DocumentFsm.DocumentLadder` | internal/fsm/fsm.go:116-151 | the logged changeset is the catch-up of the entry, and the new head is the entry's base, the entry, then the log transformed past it |
| `DocumentFsm.RunLadder` | internal/fsm/fsm.go:116-151 | the same for every document reached by submissions without adjacent inserts |
| `DocumentFsm.RunKeepsReplay` | internal/fsm/fsm.go:75-172 | over every sequence of entries the head is the replay of the log from the initial text |
| `DocumentFsm.AcceptedIdsIncrease` | internal/fsm/fsm.go:92-113 | per client the accepted submission ids strictly increase over every run |
| `DocumentFsm.ResentCopyIsSkipped` | internal/fsm/fsm.go:92-113 | after acceptance no later copy changes the final state, whatever is committed in between |
| `DocumentFsm.DuplicatesLeaveNoTrace` | internal/fsm/fsm.go:92-113 | deleting the skipped entries from a committed log leaves the final state unchanged |
| `DocumentFsm.RebasedCopyCommitsAlike` | internal/fsm/fsm.go:94-151 | a copy rebased to a later base commits as the same revision record |
| `Clients.FirstConnect` | web/client.js:385-391 | a client consistent with the server's head |
| `Clients.ConnectShowsHead` | web/client.js:385-430 | a client that connects shows the head text, as its confirmed text and as A.X.Y |
| `BrowserText.ShowChangeset` | web/client.js:40-62 | the loop checks the declared length and nothing else, clamps its slices and computes `Shown` |
| `BrowserText.ShownIsRun` | web/client.js:40-62 | operations that cover the text are shown as what they mean |
| `Clients.Acknowledge` | web/client.js:442-466 | A takes in X, X becomes the identity, the confirmed text is what was submitted; screen and Y stay |
| `Clients.AcknowledgeKeepsScreen` | web/client.js:442-466 | for every consistent client an acknowledgement leaves the screen, the submitted text and what is typed beyond it, so A.X.Y is on the screen after it if and only if it was before |
| `Clients.Broadcast` | web/client.js:477-530 | the confirmed text takes B, X is rebased past B, and the client stays consistent |
| `Clients.Receive` | web/client.js:477-530 | the handler on any broadcast of positive lengths, none of whose steps fails; on one that fits it is `Broadcast` |
| `Clients.ShorterIsTaken` | web/client.js:477-530 | a broadcast made for a shorter text is taken all the same, and cuts the screen to its length |
| `Clients.Submit` | web/client.js:594-616 | what is sent is the new X, with the next submission id and the client's revision as base |
| `Clients.TimerTick` | web/client.js:581-616 | while an acknowledgement is outstanding X is sent again under the same id when due, and nothing else changes |
| `Clients.TickKeepsScreen` | web/client.js:581-616 | whatever the timer sends, the screen stays and A.X.Y with it; a new submission puts A.X.Y on the screen |
| `Clients.SubmitsExactlyTheDifference` | web/client.js:594-616 | something is sent exactly when screen and confirmed text differ, and it accounts for all of the difference |
| `Clients.BroadcastFits` | web/client.js:491-506 | whatever the ties, Y' fits A'.X' and the screen is the old one changed by D |
| `Clients.TiesKeepScreen` | web/client.js:485-523 | after a broadcast that ties with X alike both ways, A'.X'.Y' is the screen |
| `Clients.ScreenHoldsExactlyWhenTiesAgree` | web/client.js:485-523 | in every consistent state, whatever is typed beyond X, the screen law holds after a fitting broadcast if and only if broadcast and X tie alike |
| `Clients.BroadcastKeepsScreen` | web/client.js:485-523 | a broadcast without adjacent inserts always keeps the screen law |
| `KeptUnits.OrdersKeepTheSame` | internal/ot/follow.go:110-186 | the two orders of concurrent changesets agree wherever the rebased one retains, whatever their ties |
| `KeptUnits.FollowDeletesKept` | internal/ot/follow.go:110-186 | a rebased changeset deletes nothing the other inserted: it deletes only what the other retained |
| `KeptUnits.RebasedTellsApart` | web/client.js:491-506 | a third changeset rebased past both shows one text on the two orders only if they are one text |
| `Clients.EditorClient.HandleAck` | web/client.js:442-466 | the handler computes `Acknowledge` |
| `Clients.EditorClient.HandleBroadcast` | web/client.js:477-530 | on any broadcast of positive lengths the handler computes `Receive`; on a fitting one it computes `Broadcast` and keeps the client consistent |
| `Clients.EditorClient.SubmitTick` | web/client.js:581-631 | the handler computes `TimerTick` |
| `Sessions.PendingAccepted` | internal/fsm/fsm.go:116-151 | the outstanding submission will be accepted, as the catch-up of the client's present X |
| `Sessions.AckedRevisionIsX` | web/client.js:442-466 | at the acknowledgement X is structurally the logged revision and A.X is the text at it |
| `Sessions.BehindMeansEnabled` | web/client.js:477-530 | the next revision always fits a client that is behind |
| `Sessions.StepAgrees` | web/client.js:442-530 | typing, submitting, commits by anyone and deliveries keep client and server in agreement |
| `Sessions.RunAgrees` | web/client.js:442-616 | in every state of every run the confirmed text is the server's text at the client's revision |
| `Sessions.QuietClientShowsHead` | web/client.js:594-616 | a client that heard everything and has nothing outstanding shows the head exactly when it has nothing to submit |
| `Screens.RunScreenExactlyWhenTiesAgree` | web/client.js:485-523 | after every broadcast of every run the client shows A.X.Y if and only if broadcast and X tie alike |
| `Screens.RunKeepsScreen` | web/client.js:485-523 | over every run in which the others submit no adjacent inserts, the client shows A.X.Y after every broadcast |
| `Screens.RunScreenChanges` | web/client.js:442-616 | in every step of every run only typing and other clients' revisions change the screen |
| `Screens.RunKeepsAXY` | web/client.js:442-616 | over every stretch of a run without typing in which broadcasts tie alike, A.X.Y stays on the screen through submissions, acknowledgements and commits |
| `Screens.ScreenBreaks` | web/client.js:485-523 | a run in which another client's adjacent inserts leave "bba" on the screen where A.X.Y is "bab" |
| `Screens.ResentCopyCommitsAlike` | web/client.js:585-592 | while the submission is on its way, committing the resent copy instead yields the same revision and state |
| `Screens.LateCopyIsSkipped` | web/client.js:585-592 | once it is committed, any copy sent again is skipped |
| `LogStore.InmemLogStore.FirstIndex` | internal/raft/inmem.go:37-41 | the least stored index, 0 exactly when empty |
| `LogStore.InmemLogStore.LastIndex` | internal/raft/inmem.go:43-47 | the greatest stored index, 0 exactly when empty |
| `LogStore.InmemLogStore.GetLog` | internal/raft/inmem.go:49-61 | the entry at an index, or none; on a gapless store the element of the log |
| `LogStore.InmemLogStore.StoreLogs` | internal/raft/inmem.go:67-85 | stores in order; the cached last index is right whatever the indexes, the first exactly when none of them is 0, and entries numbered on from the end extend the log |
| `LogStore.LastStoredIsKept` | internal/raft/inmem.go:67-85 | of several entries for one index the last stored is kept, and all other indexes stay as they were |
| `LogStore.InmemLogStore.DeleteRange` | internal/raft/inmem.go:87-105 | removes exactly the range and recomputes the cached indexes; deleting to the end cuts the log |
| `RaftNode.Node.constructor` | internal/raft/raft.go:82-132 | the state after a fresh start |
| `RaftNode.Node.Restore` | internal/raft/raft.go:82-132 | a restart restores term, vote and log and makes the rest fresh, as the crash step assumes |
| `RaftNode.Node.LastLogInfo` | internal/raft/raft.go:702-715 | last index and term, both 0 on an empty log |
| `RaftNode.Node.StepDown` | internal/raft/raft.go:688-700 | new term, follower, vote cleared, nothing else |
| `RaftNode.Node.StartElection` | internal/raft/election.go:27-60 | next term, vote for itself, and a request that describes its log |
| `RaftNode.Node.HandleRequestVote` | internal/raft/election.go:106-178 | state and answer are those of `HandleVote`; the timer resets exactly on a granted vote |
| `RaftNode.Node.BecomeLeader` | internal/raft/raft.go:374-440 | leader, with every other server's nextIndex one past the last entry and matchIndex 0 |
| `RaftNode.Node.Append` | internal/raft/raft.go:484-542 | a leader's log grows by one entry of its term at the next index; anyone else refuses |
| `RaftNode.Node.BuildRequest` | internal/raft/replication.go:80-122 | the request carries everything from nextIndex to the last entry and the term before it |
| `RaftNode.Node.ConflictStart` | internal/raft/replication.go:286-294 | the backward search finds the first index of the conflicting term's run |
| `RaftNode.Node.CheckPrevious` | internal/raft/replication.go:268-300 | the consistency check and the hint of its refusal |
| `RaftNode.Node.AppendNew` | internal/raft/replication.go:302-338 | on any entries the store is merged entry by entry and its last index right; entries numbered on from prevIndex give the merged log |
| `RaftNode.Node.HandleAppendEntries` | internal/raft/replication.go:230-355 | on any request the answer is that of `HandleAppend`, the store is merged and the commit index moves to the smaller of the leader's and the last index; when the entries are numbered on from prevIndex the whole state is that of `HandleAppend`; the timer resets exactly when the sender's term is not stale |
| `RaftNode.Node.FindLast` | internal/raft/replication.go:172-186 | the search from the end finds the last index of a term, or 0 |
| `RaftNode.Node.ProcessResponse` | internal/raft/replication.go:148-205 | progress and commit, or backing up, as `HandleAppendResp` |
| `RaftNode.Node.CollectMatches` | internal/raft/replication.go:370-377 | whatever order the peers come in, for every k as many collected indexes reach k as servers do |
| `RaftNode.Node.AdvanceCommitIndex` | internal/raft/replication.go:369-401 | moves the commit index as `AdvanceCommit`, and nothing else |
| `RaftNode.Node.ApplyCommitted` | internal/raft/raft.go:599-630 | the state machine receives exactly the commands of the newly committed stretch, in order, without no-ops |
| `RaftInvariant.InitInv` | internal/raft/raft.go:82-132 | a fresh cluster satisfies the invariant |
| `RaftInvariant.LogMatching` | internal/raft/replication.go:270-338 | logs made of leaders' prefixes agree up to wherever their terms agree |
| `RaftInvariant.TermsNondecreasing` | internal/raft/replication.go:302-338 | the terms of such a log are positive and never fall |
| `RaftSafety.ElectionSafety` | internal/raft/election.go:106-178 | a candidate with a majority of granted votes is in a term nobody has won |
| `RaftSafety.LeaderCompleteness` | internal/raft/election.go:145-163 | what a majority acknowledged in a leader's own term, every later leader had when elected |
| `RaftSafety.StateMachineSafety` | internal/raft/raft.go:600-630 | two applied entries at one index are one entry |
| `RaftSafety.CommitsAgree` | internal/raft/replication.go:390-401 | of any two committed stretches one is a prefix of the other |
| `RaftQuorum.QuorumIndexIsGreatest` | internal/raft/replication.go:379-384 | an index is at most the one at position majority - 1 if and only if a majority holds it, for every cluster size |
| `RaftQuorum.CommitRule` | internal/raft/replication.go:371-401 | looking only at the quorum index commits exactly the greatest index the own-term rule allows |
| `RaftQuorum.FastBackupIsSound` | internal/raft/replication.go:165-205 | a refusal strictly lowers nextIndex and never below the first index after the longest common prefix |
| `RaftQuorum.SkippedWouldBeRefused` | internal/raft/replication.go:169-205 | every index a backup skips would have been refused one by one |
| `RaftQuorum.JumpBackEndsWhereStepBackDoes` | internal/raft/replication.go:165-205 | repeated against a standing follower, fast backup ends, and ends at exactly the index decrement-by-one reaches: the first after the longest common prefix |
| `RaftBackup.RefusalDisposesOfTerm` | internal/raft/replication.go:165-300 | after a refusal the leader goes on right behind its last entry of the conflicting term, or if it has none at the follower's first entry of that term; right behind the follower's log when that is too short |
| `RaftBackup.RefusalsBounded` | internal/raft/replication.go:165-300 | fast backup takes at most one refusal for each term in the follower's log beyond the common prefix, and one more if that log is too short |
| `RaftFollowers.MergeIsPrefix` | internal/raft/replication.go:302-338 | after a matching request the log is the leader's up to the request's end, or contained it already |
| `RaftFollowers.MatchedPrefix` | internal/raft/replication.go:270-300 | comparing one term compares the whole prefix |
| `RaftFollowers.TakeOver` | internal/raft/replication.go:302-338 | replacing a follower's log by one that keeps all it shares with its leader keeps the invariant |
| `RaftLeaders.WinKeeps` | internal/raft/raft.go:364-440 | winning keeps the invariant |
| `RaftLeaders.LeaderAppendKeeps` | internal/raft/raft.go:484-542 | a client command or a no-op keeps the invariant |
| `RaftTransitions.TimeoutKeeps` | internal/raft/election.go:27-92 | standing for election keeps the invariant |
| `RaftTransitions.HandleVoteKeeps` | internal/raft/election.go:106-178 | answering a vote request keeps the invariant |
| `RaftTransitions.StepDownKeeps` | internal/raft/raft.go:355-361 | hearing of a later term keeps the invariant |
| `RaftTransitions.BuiltRequestOk` | internal/raft/replication.go:80-122 | every request reaches the leader's last entry, so its commit index lies within what it carries |
| `RaftTransitions.HandleAppendKeeps` | internal/raft/replication.go:230-355 | answering an append request, stale, refused or accepted, keeps the invariant |
| `RaftTransitions.AppendReplyKeeps` | internal/raft/replication.go:148-205 | progress, commit by counting and backing up keep the invariant |
| `RaftTransitions.ApplyKeeps` | internal/raft/raft.go:606-629 | applying one entry keeps the invariant |
| `RaftTransitions.RestartKeeps` | internal/raft/raft.go:649-677 | a crash, also between the two persistent writes, keeps the invariant |
| `RaftTransitions.CrashInHandlerKeeps` | internal/raft/raft.go:688-700 | a crash after a step-down was persisted and before its handler went on keeps the invariant |
| `RaftTransitions.CrashInAppendKeeps` | internal/raft/replication.go:318-334 | a crash after cutting and before storing keeps the invariant |
| `RaftRuns.NextKeepsInv` | internal/raft/raft.go:558-577 | every step of the cluster keeps the invariant |
| `RaftRuns.ExecutionInv` | internal/raft/raft.go:247-265 | the invariant holds in every state of every run |
| `RaftRuns.RunElectionSafety` | internal/raft/election.go:5-6 | two servers that are ever leaders of one term are one server |
| `RaftRuns.RunSupportersStand` | internal/raft/election.go:135-167 | every member of a winning quorum keeps that vote or has moved to a later term |
| `RaftElections.RunGrantedExactlyWhen` | internal/raft/election.go:106-199 | in every reachable state a server votes for another's request exactly when it is free to in that term and its log is not ahead: not ending in a later term, nor going on where the other's ends |
| `RaftElections.RunOneOfTwoIsElectable` | internal/raft/election.go:180-199 | of two servers free for each other at least one gets the other's vote, and both do exactly when their logs are equal |
| `RaftElections.RunQuorumCanElect` | internal/raft/election.go:106-199 | in every reachable state every quorum has a member for which all its free members would vote |
| `RaftOrigins.RunMessageWasSent` | internal/raft/replication.go:80-122 | every message in flight was sent at an earlier moment with its sender's term: a vote request by a server standing for election, a reply as its sender answered it then, an append request by a leader |
| `RaftOrigins.RunTermsAreDense` | internal/raft/election.go:27-60 | each term up to any server's was some server's at that moment or before |
| `RaftOrigins.HearingRaisesTerm` | internal/raft/raft.go:688-700 | whatever it answers, and even if it crashes over it, a server that hears of a later term is a follower in that term, and otherwise stays in its own |
| `RaftExample.TwoVotesInOneTerm` | internal/raft/replication.go:246-253 | a run of three servers in which one votes for itself and then for another in the same term |
| `RaftVotes.RunVoteLostExactlyWhen` | internal/raft/replication.go:246-253 | in every step of every run a server loses its vote within the term if and only if it is a candidate reached by an append request of that term |
| `RaftVotes.RunVoteChanges` | internal/raft/raft.go:688-700 | a vote that differs at two moments of one term was the server's own, and in between it was a candidate in a term another had won |
| `RaftVotes.RunVoteForAnotherStands` | internal/raft/election.go:135-167 | a vote for somebody else is never taken back in its term |
| `RaftRuns.RunLogMatching` | internal/raft/replication.go:270-338 | logs of any two servers at any two moments agree up to wherever their terms agree |
| `RaftRuns.RunLogShape` | internal/raft/raft.go:493-499 | every log is numbered from 1 without gaps and its terms never fall |
| `RaftRuns.RunLeaderCompleteness` | internal/raft/election.go:151-152 | what any server ever committed in a term is in the log of every leader of a later term |
| `RaftRuns.LeaderHoldsCommitted` | internal/raft/replication.go:340-347 | at any moment a leader holds everything committed by servers not ahead of its term |
| `RaftRuns.RunCommittedLogsAgree` | internal/raft/replication.go:340-401 | of the committed logs of any two servers at any two moments one is a prefix of the other |
| `RaftRuns.RunStateMachineSafety` | internal/raft/raft.go:599-630 | no two servers ever apply different entries at one index |
| `RaftReplication.RunRequestsReachTheEnd` | internal/raft/replication.go:84-110 | throughout leadership nextIndex is at most one past the last entry and requests end at it |
| `RaftReplication.RunRequestWasSent` | internal/raft/replication.go:80-122 | every append request in flight carries its leader's term, entries from nextIndex to the last, and commit index, as they were at an earlier moment |
| `RaftReplication.RunReplyWasGiven` | internal/raft/replication.go:124-134 | every reply in flight is what its sender answered at an earlier moment, as it was then |
| `RaftReplication.RunFastBackup` | internal/raft/replication.go:165-205 | processing any refusal, however late, puts nextIndex below that of the request, above all the leader now shares with the follower as it was when it refused, and past a whole term of that follower's log or all it is short of |
| `RaftReplication.RunBackupEnds` | internal/raft/replication.go:165-205 | for every leader and peer of every reachable state fast backup ends where decrement-by-one does, within that number of refusals |
| `RaftReplication.RunFollowerCommitSafety` | internal/raft/replication.go:302-347 | an accepted request, also a late one of a deposed leader, leaves that term's leader's entries up to its end; the commit index becomes the greater of the leader's and its own, and never covers an entry that leader lacks |
| `RaftReplication.RunFollowerLearnsCommit` | internal/raft/replication.go:340-347 | a follower that accepts ends with the greater of its own commit index and its leader's when the request was sent |
| `RaftReplication.RunLeaderHistory` | internal/raft/raft.go:493-502 | the log recorded for a term extends its leader's log at every earlier moment and is extended by it at every later one |
| `RaftReplication.RunLeaderTracksOthers` | internal/raft/raft.go:420-439 | in every reachable state a leader keeps progress of exactly the other servers |
| `RaftReplication.RunCommitRule` | internal/raft/replication.go:369-401 | in every reachable state a leader commits exactly the greatest index the own-term rule allows |
| `RaftProgress.RunWinnerStartsAtTheEnd` | internal/raft/raft.go:420-439 | a new leader's first request to every other server is empty and asks about its last entry; nothing counts as replicated yet |
| `RaftProgress.RunSuccessMovesOn` | internal/raft/replication.go:148-163 | when a leader hears that a request was taken in, its next request to that server carries exactly what has been appended since that request was built, and the match index is the log's length then |
| `RaftProgress.RunNothingLeftToCommit` | internal/raft/replication.go:148-163 | after a reply that reports a success nothing is left that the commit rule would allow |
| `RaftProgress.RunOnlyCrashesForget` | internal/raft/raft.go:688-700 | in every step of every run, commit and applied indexes only fall in a crash |
| `RaftExample.CommandGetsApplied` | internal/raft/replication.go:70-214 | a run of three servers that elects a leader and commits any given command, which the leader and then a follower apply |
| `ReplicatedDocument.RunSound` | internal/server/websocket.go:363-371 | if only validated submissions are proposed, every leader's log holds only such |
| `ReplicatedDocument.AppliedAgree` | internal/raft/raft.go:606-629 | of what two servers have applied the shorter stretch starts the longer |
| `ReplicatedDocument.DocumentIsReplica` | internal/raft/raft.go:599-630 | feeding entry by entry, across restarts, gives what the applied log gives in one go |
| `ReplicatedDocument.DocumentsAgree` | internal/fsm/fsm.go:141-151 | of any two servers' documents at any two moments one revision log is a prefix of the other, and equal revisions show equal texts |
| `HostedSessions.JointRunHosts` | internal/raft/raft.go:599-630 | at every point of a joint run the session's document is exactly its server's, and client and document agree |
| `HostedSessions.AppliedIsEnabled` | internal/fsm/fsm.go:81-172 | whatever the server applies, the session's document accepts or skips as one of its commits |
| `HostedSessions.ClientAgreesWithCluster` | web/client.js:442-530 | at every point of a joint run the client's confirmed text is the text at its revision on every server of the cluster, at every moment at which that server has come so far |
| `HostedSessions.AckedOnEveryServer` | web/client.js:442-466 | at an acknowledgement in a joint run what the client submitted is the text of that revision on every such server |

## Left out

- Clocks, timers, election timeouts and every liveness claim; in the model any server may time out at any time.
- Transports, sockets, JSON, BoltDB, configuration and logging.
- Storage errors: reads and writes of the log and stable stores succeed; crashes are steps.
- Futures and redirects: leader ids and addresses, `pendingFutures` and their resolution.
- Counting votes: the model takes a set of servers whose granted replies are among the messages where the source increments a counter per reply of its own election.
- Three steps carry a guard the code does not re-check under its lock: winning happens while still candidate in the election's term and together with the initialisation of the peers (internal/raft/raft.go:374-440), the no-op is appended while still leader (internal/raft/raft.go:523-533), and a response that is not from a later term is processed while still leader in the request's term (internal/raft/replication.go:134-162).
- Integers are unbounded: the wrap-around of 64-bit terms and indexes is not modelled, nor the endless loop of a `DeleteRange` up to the largest one.
- RaftNode.Node.HandleAppendEntries: after entries with index 0, which the store takes for "none", the cached first index is wrong, and nothing is claimed of the calls that follow; no leader builds such a request.
- RaftNode.Node.AdvanceCommitIndex: sorting is the library's, modelled by a sorting function.
- Text units: outside the server's diff one abstract unit stands for Go's bytes and the browser's UTF-16 units, with a total order on texts. A text that is not a valid encoding, which Go's runes do not reproduce, is not modelled.
- Changesets.ApplyChangeset: an error and the panics on negative lengths, the declared result length included, are all "no text".
- Operation types outside the three, and operations without positive length in `Follow`, `Compose` and what uses them: their cursors may not advance on them.
- Negative base revisions, which would index the log below its start.
- `MakeInsert`, `MakeDelete` and `String` are not part of this model.
- A joint run of browser and server ends where the server restarts and feeds its document anew, and an entry under the browser's own id is the submission it has outstanding.
- Reconnection with catch-up (web/client.js:392-425). In the runs of a session the revision log is delivered in order with one acknowledgement per submission; what a resent copy does to the document is stated apart from them.
- The cursor, the stress-test panel and the page.
- The order of three or more concurrent edits: the cluster decides it, and nothing is claimed about other orders.
