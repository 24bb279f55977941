# Raft replica and replicated board, verified

A model of the consensus node behind a collaborative drawing canvas, and proofs about it. A replica takes part in
elections, replicates strokes with AppendEntries, commits by the current-term rule, confirms its leadership before a
read (ReadIndex), writes ahead to disk, snapshots and compacts its log, and derives from its committed log a board with
undo and redo per drawing room. The protocol is that of Ongaro and Ousterhout, "In Search of an Understandable Consensus
Algorithm (Extended Version)", sections 5.2, 5.3, 5.4.2, 5.4.3 and 7; reads follow section 6.4 of Ongaro's dissertation.

`dafny verify dfyconfig.toml` checks everything.

## How the files fit together

| file | contents |
|---|---|
| `Types.dfy`, `Board.dfy`, `Listing.dfy` | entries and messages; the undo/redo state machine on one and many boards; the list of strokes a board shows, told from its events |
| `LogModel.dfy`, `Splices.dfy` | the offset log, the plain log it stands for, the AppendEntries merge, and exactly what it does to the plain log |
| `Replica.dfy`, `Answers.dfy` | every handler of the node as a function on a replica value; what each answers and does, told without it, in terms of full logs and majorities |
| `Storage.dfy`, `RaftNode.dfy` | the durable store, the log and the node as classes updated in place, with the source's loops; each method is proved to do what its function does and to leave the disk in step |
| `ReplicaRuns.dfy`, `Crashes.dfy` | one replica over any sequence of handler calls and restarts; recovery from disk; a crash inside a snapshot, or anywhere else in a handler |
| `Cluster.dfy` | any number of replicas over a network that loses, delays, repeats and reorders messages; runs |
| `Votes.dfy`, `Nodes.dfy` | what holds in every run, however often nodes compact: one leader per term; each log stands for a full one whose committed part never changes, and the boards show it |
| `Elections.dfy`, `Logs.dfy`, `Steps.dfy` | the invariants about logs, and that every step of an anchored run keeps them |
| `Safety.dfy`, `Commits.dfy`, `Followers.dfy`, `Reads.dfy`, `Writes.dfy` | the theorems about whole runs: safety, commits of leaders and of followers, reads, and what a successful write means |
| `Agreement.dfy` | State Machine Safety: the guard it needs, that it needs no less, and that under it every run is anchored |
| `Stage.dfy`, `Witnesses.dfy` | how to build concrete runs, and the runs that show which conditions of those theorems cannot be dropped |
| `CatchUp.dfy`, `Repairs.dfy`, `Progress.dfy` | how fast a follower catches up, which logs replication repairs at all, and that a leader with a majority in reach commits its log |
| `Wal.dfy` | the write-ahead log as text |
| `Gateway.dfy`, `Client.dfy` | the gateway's and the browser's copies of the board |

One function per handler serves twice: the class methods are proved equal to it, and the cluster steps are made of it.
A handler runs to completion between awaits, so it is one atomic step; sending a request and handling its reply are two.
A leader log, a vote or an accepted entry is never assumed of a run: all fields of a cluster but the nodes and the network
are computed from these at every step. They only record what happened; one of them, the list of reads begun, is also where
the end of a read finds its term.

Nodes compact their logs in these runs, at thresholds of their own. Theorems about logs speak of the full log that a
compacted one stands for. Three kinds of run appear. `Cluster.IsRun` is any run. In `Cluster.IsAnchoredRun` a follower that
takes a batch has compacted nothing but a prefix of its sender's log: below the boundary the handler checks nothing and
trusts this. A run in which nobody has compacted yet is anchored (`Safety.UncompactedIsAnchored`), and so is every run in
which followers commit under the guard below (`Agreement.GuardedIsTimely`). `Cluster.IsTimelyRun` adds that a leader counts
no success from one of its earlier leaderships, unless for a batch that ends within the log it was elected with.

The invariant behind Election Safety is not "one vote per node and term". `becomeFollower` clears the vote even when the
term does not change, so a candidate that steps down at its own term can vote again. What holds is that the voters of an
elected leader stay pinned: a vote is cleared at an equal term only after that term has a leader, and never by a member
of that leader's quorum.

## What the code does not guarantee

Each of these is stated as a lemma, with the exact condition or the theorem that holds under it.

- A heartbeat carries no log check, so a follower commits its own unverified tail up to the leader's commit index
  (`Witnesses.HeartbeatCommitsUnverified`). What it has committed is part of its leader's log exactly when both logs have the
  same term at the new commit index (`Followers.HeartbeatCommitsExactly`, and for AppendEntries with a longer follower
  `Followers.AppendCommitsExactly`); up to the end of an accepted batch it always is (`Followers.FollowerCommitAgrees`). This
  comparison of terms is the guard that is missing: over runs with timely replies, no two nodes ever commit different entries
  at an index if and only if every follower that raises its commit index passes it (`Agreement.SafeExactly`).
- The comment in `replica/src/persistence.ts` that committed entries are never truncated is true of AppendEntries, heartbeats
  and restarts (`Nodes.CommittedStays`); a crash inside `applySnapshot` can lose them (`ReplicaRuns.CrashDuringInstall`), and
  that they are the entries of the leader is not promised at all.
- `takeSnapshot` makes an unchecked commit permanent. Once a follower has compacted its own tail, a batch that reaches below
  the boundary passes unchecked, and the node acknowledges new entries over a wrong prefix
  (`Witnesses.SnapshotBreaksMatching`). The log theorems therefore need anchored runs; guarded runs are.
- A reply is checked for a higher term only. A reply to an earlier leadership of the same node can back a commit that a
  later leader contradicts (`Witnesses.StaleRepliesBreakCommits`). Commit theorems assume that successful replies are timely,
  `Cluster.IsTimelyRun`; the guard of followers is no substitute, as that witness meets it.
- A client write is answered without a check that the node is still in the term of the write, so a write that was lost can be
  reported as a success (`Witnesses.LostWriteIsReported`). The written entry has been applied exactly when the commit index
  has reached it and the log still has the term of the write there (`Writes.SuccessAppliesExactly`); in the same term it always
  has (`Writes.SuccessMeansCommitted`), and then no later leader lacks it (`Writes.SuccessLasts`).
- A read confirmed by a majority may lag behind commits made before it began, as the code's own comment admits
  (`Witnesses.ConfirmedReadLags`), exactly when the reader's commit index does (`Reads.ReadCurrentExactly`); it does not once the
  reader has committed in its own term (`Reads.ReadIsCurrent`).
- A rejected batch moves the next index to the follower's length plus one and never back past a conflict. A new leader that
  only replicates brings a follower to its own log exactly when it knows the end of the follower's
  (`Repairs.RepairsExactly`); one that also goes on writing and committing, exactly when both have the same term at the end of the shorter log
  and the follower has committed nothing beyond the leader's (`Repairs.RepairsWithWrites`).
- An undo or redo with an empty target is a drawing event to the code (and the gateway's validation lets it in). The closed
  form of the board holds exactly when no redo of a drawn and undone id comes up empty (`Board.ClosedFormExactly`).
- A torn last line is dropped from memory but stays in the file: the next append, though completed, is lost on the next load,
  and one append more makes the log unreadable (`Wal.TornLineSwallowsNextAppend`, `Wal.TornLineCorruptsLaterAppends`). If only
  the line break was torn off, the last entry is recovered at first, and lost together with the next one.
- `applySnapshot` rewrites the log before it saves the snapshot. A crash in between brings the node back exactly when its log
  held no entry at all; otherwise entries it had acknowledged are gone, and in most cases the entries left no longer sit at
  their indices (`ReplicaRuns.CrashDuringInstall`). No other handler has such a moment.
- The browser's board differs from the replica's exactly when an id is drawn twice or drawn while undone, or a redo comes up
  empty (`Client.ClientAgreesExactly`).

## Model

| member | source | states |
|---|---|---|
| Votes.ElectionSafety | replica/src/raftNode.ts:114-271 | two leaders of one term, at any two moments of a run of any cluster size with restarts, snapshots and any message order, are the same node |
| Votes.QuorumsMeet | replica/src/raftNode.ts:176-176 | any two sets of the majority size used by the code share a node |
| Votes.WinsOnce | replica/src/raftNode.ts:183-198 | a node, compacted or not, that newly becomes leader does so in a term that had none, because its votes would meet the pinned quorum of the other leader |
| Votes.KeepVoteInv | replica/src/raftNode.ts:114-271 | every change to a node's vote, role and term that a handler can make keeps the vote invariant: votes recorded while their term has no leader, and quorums pinned to the leader they elected |
| Elections.KeepElectionInv | replica/src/raftNode.ts:244-271 | and, whatever the node has compacted, that winners had logs at least as up to date as their voters |
| Logs.KeepLogInv | replica/src/raftNode.ts:244-343 | and the log invariant: every log is rooted in the logs of the leaders of its terms, requests carry slices of their leader's log, and what a node accepted it keeps unless it follows a later leader elected without it |
| Steps.InitInv | replica/src/raftNode.ts:56-86 | the fresh cluster satisfies all invariants |
| Steps.NextInv | replica/src/raftNode.ts:114-522 | every step of the protocol, snapshots included, keeps them all, unless it takes a batch over a compacted part that its sender does not share; and no recorded leader log ever loses an entry |
| Nodes.RunShows | replica/src/raftNode.ts:485-522 | in every state of any run each node's log stands for its full log, and its boards are exactly the replay of the full log up to its commit index |
| Nodes.CommittedStays | replica/src/raftNode.ts:283-522 | what a node has committed at one moment of any run is a prefix of what it has committed at every later one |
| Nodes.CommitNeverFalls | replica/src/raftNode.ts:283-522 | no node's commit index falls between two moments of any run, restarts included |
| Agreement.SafeExactly | replica/src/raftNode.ts:335-367 | over every run with timely replies: no two nodes, at any two moments, have committed different entries at an index if and only if each follower that raises its commit index has there an entry of the same term as the leader it heard |
| Agreement.StateMachineSafety | replica/src/raftNode.ts:335-500 | in such a guarded run, of any two nodes at any two moments, what the one has committed is a prefix of what the other has, and the boards of the one ahead are the other's boards with the strokes in between applied |
| Agreement.GuardedIsTimely | replica/src/raftNode.ts:300-333 | a guarded run is anchored: whatever is compacted agrees with every leader that is heard, so the theorems below hold of it |
| Safety.LogMatching | replica/src/raftNode.ts:283-343 | two full logs, at any two moments of an anchored run, with an entry of the same index and term are identical up to it |
| Safety.LeaderCompleteness | replica/src/raftNode.ts:244-343 | in an anchored run, once a majority has accepted in term t the entry of term t at index n, every leader of a later term holds that entry and everything before it, exactly as each acceptor did |
| Safety.LaterLeadersHave | replica/src/raftNode.ts:244-279 | the induction over terms behind it: the first later leader lacking a chosen entry would share a voter with its quorum |
| Safety.LeaderLogGrows | replica/src/raftNode.ts:283-343 | in an anchored run a leader's log always extends the log it was elected with and is a prefix of what it ends up with in that term |
| Commits.CommitsAgree | replica/src/raftNode.ts:403-481 | of any two commit advances by any leaders of a run with timely replies, one committed log is a prefix of the other |
| Commits.CommitIsChosen | replica/src/raftNode.ts:458-481 | what a leader commits has been accepted by a majority in its own term, and lies above the log it was elected with |
| Commits.RunAcks | replica/src/raftNode.ts:432-450 | in a timely run every entry of the leader's own term up to a peer's match index, the only ones the commit rule counts, was accepted by that peer in that term; likewise for every success reply under way |
| Followers.FollowerCommitAgrees | replica/src/raftNode.ts:300-342 | in an anchored run, after a successful AppendEntries, the follower's log up to the end of the batch, and what it has committed up to there, and the log of that term's leader at any moment are prefixes of one another |
| Followers.HeartbeatCommitsExactly | replica/src/raftNode.ts:347-367 | in an anchored run, when a heartbeat moves a follower's commit index, its committed log is part of its leader's if and only if both logs have the same term at the index it moves to, which the leader's log always reaches |
| Followers.AppendCommitsExactly | replica/src/raftNode.ts:335-342 | the same for AppendEntries, and the condition always holds up to the end of the batch |
| Followers.CommittedByTerm | replica/src/raftNode.ts:300-342 | in every state of an anchored run, a node's committed log is part of the log of the leader of any term if and only if that log is as long and has the same term at the commit index |
| Reads.ReadIndexSafety | replica/src/raftNode.ts:807-855 | in any run, snapshots included, a read that succeeds in term T began at a moment when no node had been leader in a term above T |
| Reads.ReaderHasCommits | replica/src/raftNode.ts:807-855 | in a timely run its reader's log holds everything any leader had committed before the read began |
| Reads.ReadIsCurrent | replica/src/raftNode.ts:836-855 | and once the reader has committed an entry of its own term, its committed log extends all of that, and each board returned is the replay of that log |
| Reads.ReadCurrentExactly | replica/src/raftNode.ts:836-855 | in general it extends a commit made before the read began if and only if the reader's commit index has reached that commit |
| Witnesses.ConfirmedReadLags | replica/src/raftNode.ts:836-855 | a guarded run with timely replies, of five nodes, in which node 0 leads and commits an entry, a read of node 1 begins after that and is confirmed, and node 1 answers it with nothing committed |
| Witnesses.HeartbeatCommitsUnverified | replica/src/raftNode.ts:360-364 | a run of five nodes with timely replies after which a follower has committed one stroke at index 1 and the leader of its term another |
| Witnesses.StaleRepliesBreakCommits | replica/src/raftNode.ts:432-442 | a run of five nodes, one reply delivered late, in which no commit index rises unguarded and after which two leaders have committed different entries at index 2 |
| Witnesses.SnapshotBreaksMatching | replica/src/raftNode.ts:300-333 | a run of five nodes with timely replies, anchored but for its last step, in which node 0 commits its own three entries on a heartbeat, compacts them, and acknowledges the leader's fourth entry on top of them: the logs agree at index 4 and differ at 1 to 3 |
| Replica.CommitPointIsGreatest | replica/src/raftNode.ts:458-481 | the commit loop moves to the greatest index above the commit index that is of the current term and has a majority, and stays put if there is none |
| Writes.SuccessMeansCommitted | replica/src/raftNode.ts:681-729 | in an anchored run, when a write is answered with success in the term in which the node accepted it, whatever else has committed meanwhile, the index has a majority, the written entry is committed and applied, and its stroke is on its board's event list |
| Writes.SuccessLasts | replica/src/raftNode.ts:681-729 | and in a timely run every leader of a later term, at every moment of its leadership, holds that entry |
| Writes.SuccessAppliesExactly | replica/src/raftNode.ts:709-725 | in an anchored run and any later leadership, a success means the written entry is applied if and only if the commit index has reached it and the log has the term of the write at its index |
| Writes.WrittenByTerm | replica/src/raftNode.ts:686-692 | at any moment of an anchored run any node's full log holds the written entry if and only if it has the term of the write at its index |
| Writes.SuccessCommitsExactly | replica/src/raftNode.ts:721-725 | after a success the commit index has reached the index of the write if and only if it had before or some index from it on may be committed; about the index only, not the written stroke |
| Witnesses.LostWriteIsReported | replica/src/raftNode.ts:697-725 | a guarded run with timely replies, of five nodes, in which node 0 accepts a write in term 1, loses it, leads again in term 3, and answers it with success on two genuine acknowledgements though its log does not hold the stroke |
| ReplicaRuns.CallKeeps | replica/src/raftNode.ts:283-571 | every well-formed handler call or restart keeps base <= lastApplied = commitIndex <= lastIndex, entries at their own indices and boards equal to replays; term and commit index do not fall; without InstallSnapshot the boards move by exactly the newly committed strokes |
| ReplicaRuns.RunKeeps | replica/src/raftNode.ts:56-571 | so it holds after any sequence of calls and restarts |
| ReplicaRuns.RunMonotone | replica/src/raftNode.ts:91-138 | term and commit index never fall over any sequence of calls |
| ReplicaRuns.AppliedOnlyGrows | replica/src/raftNode.ts:485-500 | without InstallSnapshot the applied strokes only grow at their end, number exactly the commit index, and their interleaved replay is what the boards show, compaction or not |
| ReplicaRuns.RecoverRestarts | replica/src/raftNode.ts:56-86 | a node restarted from a disk in step with it is the same node as a follower |
| ReplicaRuns.CrashDuringSnapshot | replica/src/raftNode.ts:511-522 | a crash before the snapshot is saved, between the two writes or after both recovers the same term, vote, commit index, remaining log and boards as no crash |
| ReplicaRuns.CrashDuringInstall | replica/src/raftNode.ts:564-571 | `applySnapshot` writes the log first: a crash before the snapshot is saved recovers the node as it was if and only if its log held no entry; the disk is one to start from if and only if no entry survives above the new boundary and nothing was committed above the old one; a crash after both recovers the installed state |
| Crashes.SyncedSurvives | replica/src/raftNode.ts:56-86 | from any disk in step with a node, a restarted node is sound, in the same term with the same vote, has the same committed entries above its boundary, which is no lower, and shows the boards moved on from the node's |
| Crashes.CommitWrite | replica/src/raftNode.ts:335-340 | saving a higher commit index before anything is applied loses nothing: recovery applies exactly the entries in between |
| Crashes.LogWrite | replica/src/raftNode.ts:328-332 | nor does a write to the log that keeps its committed part |
| ReplicaRuns.InstallKeeps | replica/src/raftNode.ts:539-571 | an installed snapshot keeps the node's invariant and never takes its commit index back |
| ReplicaRuns.InstallSyncs | replica/src/raftNode.ts:564-571 | when all its writes are done the disk is in step with the node again |
| LogModel.CompactedLogRefinesPlain | replica/src/raftLog.ts:12-86 | over any mix of append, truncate and compact, all reads at or above the boundary agree with a plain log that never forgets |
| Storage.ReloadGivesSameView | replica/src/raftLog.ts:12-86 | and loading the disk after any such mix gives the log in memory and the same view |
| LogModel.MergeAdopts | replica/src/raftNode.ts:314-333 | merging a slice of a leader's log never shortens the prefix shared with it, makes it reach the end of the slice on success, and leaves the log untouched on a committed conflict |
| Splices.MergeSplices | replica/src/raftNode.ts:314-333 | a consecutive batch that touches the log is refused if and only if it contradicts a committed entry above the boundary; otherwise it replaces the log from its first entry that was missing or of another term, and only from there |
| LogModel.MergeIdempotent | replica/src/raftNode.ts:314-333 | a successful merge repeated, at any later commit index, changes nothing |
| LogModel.MergeKeepsCommitted | replica/src/raftNode.ts:314-333 | no batch, from anyone, removes or changes a committed entry |
| LogModel.MergeKeeps | replica/src/raftNode.ts:314-333 | a consecutive batch that touches the log also keeps every entry at its own index and is wholly in when accepted; refused, it changes nothing |
| LogModel.MergeContains | replica/src/raftNode.ts:314-333 | after success the log holds every entry of the batch, and everything up to the previous index is as before |
| CatchUp.CatchesUp | replica/src/raftNode.ts:403-454 | when the leader can serve it, a follower whose log stands for a prefix of an unchanging leader's, either side compacted or compacting on the way, stands for all of it after at most one round to find its length and then as many as batches cover what lies above the next index, at least one, from any next index; the leader then knows, and it stays so |
| CatchUp.CatchesUpExactly | replica/src/raftNode.ts:403-454 | rounds of AppendEntries alone ever bring such a follower to the leader's log if and only if it has it already, or the next index, corrected to the number of entries the follower holds when it points beyond its end, lies above the leader's snapshot boundary |
| Progress.MajorityCommits | replica/src/raftNode.ts:403-481 | a leader whose last entry is of its term, with nobody in a higher term, that has visited enough lagging followers to make a majority with itself, each often enough, in any interleaving with any other visits: its next commit advance commits its whole log, its boards show it, and every write up to there is answered with success |
| Repairs.RepairsExactly | replica/src/raftNode.ts:403-454 | between an uncompacted follower and a new, unchanging leader, any number of rounds makes the logs equal if and only if the leader holds, at the follower's last index, an entry of the same term |
| Repairs.RepairsWithWrites | replica/src/raftNode.ts:403-454 | however rounds, client writes, commits and heartbeats alternate, short of snapshots, they can make the logs equal if and only if both have the same term at the end of the shorter log and the follower has committed nothing beyond the leader's |
| Replica.RequestExactly | replica/src/raftNode.ts:403-430 | a node, compacted or not, sends to a peer if and only if it leads and the peer's next index lies above its snapshot boundary; the request tells index and term of the entry before the next index and carries at most batchCap entries, exactly those of its full log from there on, none from beyond the end |
| CatchUp.BatchesIsCeiling | replica/src/raftNode.ts:420-420 | the number of batches used in that bound is the quotient rounded up |
| Board.UndoneByFields | replica/src/raftNode.ts:612-650 | for every event list, an id is in the undone set if and only if it is not blank and the latest event with action undo or redo and that target is an undo |
| Board.ShownByFields | replica/src/raftNode.ts:612-650 | when every undo and redo names a target, a stroke of an id is shown if and only if one was drawn under it and no undo of it is the latest event to undo or redo it |
| Listing.VisibleExactly | replica/src/raftNode.ts:612-650 | for every event list, the board shows, in the order of these events, exactly the strokes that an event put there and no later event undid: a drawing its own unless its id is undone, a redo the first stroke drawn under its id unless one stands there |
| Board.ClosedFormExactly | replica/src/raftNode.ts:612-650 | for every event list, an id is shown exactly when it was drawn and its latest directive is not an undo, after each event, if and only if no redo of a drawn and undone id comes up empty |
| Board.ClosedForm | replica/src/raftNode.ts:612-650 | in particular for every list whose undos and redos name a target |
| Board.ReplaySound | replica/src/raftNode.ts:612-650 | for every event list the undone set is exactly the ids whose latest directive is an undo, and no visible stroke is in it |
| Board.BlankUndoBreaksClosedForm | replica/src/raftNode.ts:623-643 | three events after which a drawn id whose latest directive is a redo is not shown |
| Board.BoardsAreIndependent | replica/src/raftNode.ts:612-650 | applying an interleaved log gives each board the replay of its own events, and only boards with events exist |
| Board.RestoreAnyOrder | replica/src/raftNode.ts:526-535 | replaying per-board event lists board by board gives the same boards in every order |
| Board.SnapshotPreservesMeaning | replica/src/raftNode.ts:511-535 | a snapshot of any committed prefix, restored in any order and followed by any rest of the log, gives the same events, undone sets and visible strokes as applying the whole log |
| Gateway.BoardManager.AddStroke | gateway/src/boardManager.ts:67-96 | the event changes its board's record exactly as a replica changes its maps, creating the record if needed, and no other board |
| Gateway.BoardRecord.Take | gateway/src/boardManager.ts:71-95 | the gateway's update of events, undone ids and strokes is one step of the replica's state machine |
| Client.BoardHook.ApplyStrokeEvent | frontend/src/hooks/useBoard.ts:20-44 | the returned list and the written archive are one step of the client's state machine |
| Client.ClientExactly | frontend/src/hooks/useBoard.ts:20-44 | for every event list, also once it differs from the replica, the client's list shows an id at most once, if and only if it was drawn, or redone after having been drawn, and not undone since, with the drawing its archive has; the archive has exactly the ids drawn |
| Client.ClientAgreesExactly | frontend/src/hooks/useBoard.ts:20-44 | for every event list, client and replica show the same strokes after each event if and only if each drawing comes under an id neither drawn before nor undone and no redo comes up empty |
| Wal.LoadLog | replica/src/persistence.ts:100-114 | the loading loop accepts a text if and only if no line but the last is unreadable, and returns the readable entries in order |
| Wal.DecodesExactly | replica/src/persistence.ts:100-114 | so does the function that specifies it, which otherwise reports the first unreadable line |
| Wal.LoadRoundTrip | replica/src/persistence.ts:100-133 | loading returns exactly the entries written, by rewrite or by appends |
| Wal.LoadAfterTornWrite | replica/src/persistence.ts:100-125 | after a crash leaving any prefix of the last append, loading returns all earlier entries, and the last one exactly when its line is complete |
| Wal.TornLineSwallowsNextAppend | replica/src/persistence.ts:100-125 | after an append torn anywhere before its line break, an entry appended in full is missing when the file is loaded, and so is the torn one even if it was complete, unless the two decode together |
| Wal.TornLineCorruptsLaterAppends | replica/src/persistence.ts:100-125 | after two further appends the file loads if and only if they do |
| Answers.MajorityExactly | replica/src/raftNode.ts:176-176 | a set of nodes has the size the code calls a majority if and only if it is more than half of the cluster |
| Answers.FollowsExactly | replica/src/raftNode.ts:114-571 | every call that shows a higher term makes the node a follower of that term without a vote, except the one a vote request may earn; only its own election raises a term otherwise; a leader goes on leading unless it is shown a higher term, restarts or hears a leader of its own term, which also clears its vote |
| Answers.VoteExactly | replica/src/raftNode.ts:244-279 | a vote is granted if and only if the voter is in an earlier term, or in that term with no vote or this one, and the candidate's full log is at least as up to date as its own; the reply's term is the greater of both |
| Answers.CandidacyExactly | replica/src/raftNode.ts:166-202 | the candidate's term, own vote, and a request that tells the end of its full log; alone it leads at once |
| Answers.TallyExactly | replica/src/raftNode.ts:145-228 | a counted reply of a higher term ends the candidacy; a grant wins if and only if the grants make a majority; the winner assumes nothing of its peers and starts each behind its own log |
| Answers.CampaignExactly | replica/src/raftNode.ts:166-279 | a node that stands for election and asks others one after the other wins if and only if, before it hears of a higher term, enough of them to make a majority with itself are free to vote for it and have logs no more up to date than its own |
| Answers.AppendExactly | replica/src/raftNode.ts:283-343 | a request succeeds if and only if it is not stale, the log has the entry before the batch in its term or in the snapshot, and the batch contradicts nothing committed; then log, commit index and snapshot boundary are exactly as told, and refused it changes neither log nor commit index; the reply tells the greater term and the number of entries held |
| Answers.BeatExactly | replica/src/raftNode.ts:347-367 | a heartbeat succeeds if and only if it is not stale, adds nothing to the log, and commits the announced index as far as the log goes |
| Answers.InstallExactly | replica/src/raftNode.ts:539-571 | a snapshot that is not stale and covers more than is committed becomes boundary, commit index and boards, keeping every entry above it, within the log or beyond; any other changes none of them |
| Answers.LearnExactly | replica/src/raftNode.ts:432-450 | what a leader believes of this peer, and of no other, after a success, an empty success and a refusal |
| Answers.AdvanceExactly | replica/src/raftNode.ts:458-481 | after a commit advance no index above the commit index is of the current term and known to a majority, and the new commit index, if it moved, is |
| Answers.AcceptExactly | replica/src/raftNode.ts:681-693 | a leader adds the stroke as the next entry of its full log in its term; any other node changes nothing |
| Answers.WriteExactly | replica/src/raftNode.ts:697-729 | a write is answered with success if and only if the node leads and a majority with itself is known to have the log up to its index, committed before or not |
| Answers.ReadExactly | replica/src/raftNode.ts:807-834 | a read is confirmed if and only if the node still leads the term it began in, no reply shows a higher term, and those that acknowledged make a majority with itself |
| RaftNode.RaftNode.constructor | replica/src/raftNode.ts:56-86 | a node built from any disk whatever is the recovered replica, for some order of the saved boards; from an intact one it is valid, the disk in step |
| RaftNode.RaftNode.HandleRequestVote | replica/src/raftNode.ts:244-271 | in place, the vote rule of the replica; a granted vote is on disk with its term before the reply |
| RaftNode.RaftNode.HandleAppendEntries | replica/src/raftNode.ts:283-343 | in place and from any state, the consistency check, merge loop, commit cap and reply of the replica; from a valid state with a batch as leaders send it the node stays valid, and every disk left on the way brings back everything committed |
| RaftNode.RaftNode.MergeEntries | replica/src/raftNode.ts:314-333 | the loop with its early exit is the merge about which the log theorems speak, for any batch, and changes nothing but the log |
| RaftNode.RaftNode.HandleHeartbeat | replica/src/raftNode.ts:347-367 | in place, the heartbeat rule; validity is kept, and every disk on the way brings back everything committed |
| RaftNode.RaftNode.HandleInstallSnapshot | replica/src/raftNode.ts:539-571 | in place, the snapshot rule with its stale case, for boards filed in any way and listed in any order; validity is kept when each stroke is filed under its own board |
| RaftNode.RaftNode.RunElection | replica/src/raftNode.ts:166-202 | in place, the new term and own vote, durable, and the request sent |
| RaftNode.RaftNode.OnVoteReply | replica/src/raftNode.ts:207-228 | in place, counting a vote reply, with stale replies ignored and higher terms followed |
| RaftNode.RaftNode.PrepareAppend | replica/src/raftNode.ts:403-430 | the batch for a peer, or none when not leading or when it needs a snapshot |
| RaftNode.RaftNode.OnAppendReply | replica/src/raftNode.ts:432-450 | in place, the four cases of a replication reply on next and match index |
| RaftNode.RaftNode.FindCommitPoint | replica/src/raftNode.ts:459-472 | the downward search with its inner counting loop finds the commit point characterised above |
| RaftNode.RaftNode.UpdateCommitIndex | replica/src/raftNode.ts:458-481 | in place, the commit advance, its persistence and the applying of entries; every disk on the way brings back everything committed |
| RaftNode.RaftNode.ApplyCommitted | replica/src/raftNode.ts:485-509 | in place, from any state, the applying of entries and the snapshot that may follow; a node one persisted commit ahead of its boards is valid again |
| RaftNode.RaftNode.TakeSnapshot | replica/src/raftNode.ts:511-522 | in place; every disk that exists during the call recovers to the same node |
| RaftNode.RaftNode.RestoreBoardState | replica/src/raftNode.ts:526-535 | the nested loops, taking the boards in an arbitrary order, rebuild the same boards |
| RaftNode.RaftNode.ApplyBoardEvent | replica/src/raftNode.ts:612-650 | the three maps together move by one event of the board state machine |
| RaftNode.RaftNode.ClientAppend | replica/src/raftNode.ts:681-693 | in place, the new entry at the next index in the current term, on disk |
| RaftNode.RaftNode.FinishWrite | replica/src/raftNode.ts:709-728 | in place, the counting of acknowledgements and the verdict on a write |
| RaftNode.RaftNode.FinishRead | replica/src/raftNode.ts:807-834 | in place, the counting of heartbeat replies of a read, stepping down at the first higher term |
| Storage.RaftLog.constructor | replica/src/raftLog.ts:12-22 | the log in memory is what the disk holds above its snapshot boundary |
| Storage.RaftLog.Append | replica/src/raftLog.ts:34-37 | one entry more, in memory and in the file |
| Storage.RaftLog.TruncateFrom | replica/src/raftLog.ts:66-70 | the tail is gone from memory and file; out of range nothing is written |
| Storage.RaftLog.Compact | replica/src/raftLog.ts:79-86 | the boundary moves and the file keeps only what is above it; at or below the boundary nothing happens |
| Storage.RaftLog.InstallSnapshot | replica/src/raftLog.ts:90-95 | entries above the new boundary survive, in memory and in the file |
| Storage.KeepAbove | replica/src/raftLog.ts:20-20 | the filtering loop keeps exactly the entries above the boundary, in order |

## Left out

- InstallSnapshot between replicas: it is not a step of the cluster. An installed snapshot keeps any tail the follower had, so Log Matching does not survive it; the handler itself is covered for one replica. `takeSnapshot` and compaction are steps like any other.
- Safety.LogMatching: is about anchored runs, as are the other theorems on logs, because a compacted prefix is trusted unchecked; Witnesses.SnapshotBreaksMatching shows it fail, and Agreement.GuardedIsTimely gives a check under which every run is anchored.
- `requestCatchUp` and `handleSyncLog`: the pull path appends with no previous-entry check, so it is in none of the theorems.
- `sendInstallSnapshot`: the leader's side of sending a snapshot and its reply.
- Commits.CommitsAgree: does not cover runs in which a leader counts a reply to a request of one of its earlier leaderships, successfully, for a batch that reaches past the log it was elected with, because the code does not tell them apart; Witnesses.StaleRepliesBreakCommits shows the claim fails there.
- Reads.ReadIsCurrent: is stated for a reader that has committed in its own term, because before that the code may serve a state that lags; Reads.ReadCurrentExactly has the condition for every confirmed read, and Reads.ReadIndexSafety needs none.
- CatchUp.CatchesUp: covers followers whose log stands for a prefix of the leader's; Repairs.RepairsExactly shows that a new leader repairs no other by replication alone.
- Progress.MajorityCommits: is about a leader that neither writes nor commits during the visits, and about followers that AppendEntries can serve; CatchUp.CatchesUpExactly says which those are.
- Commits.RunAcks: says nothing of entries of earlier terms below the match index, which the commit rule never counts.
- Repairs.RepairsWithWrites: is about an uncompacted follower, while commit indices stay below its snapshot threshold; a compacted follower reports the number of its entries, not its last index, and is sent older entries again.
- ReplicaRuns.CrashDuringSnapshot: is about `takeSnapshot` only, because `applySnapshot` writes in the other order; ReplicaRuns.CrashDuringInstall says exactly when that survives a crash.
- A board named `__proto__`: the source builds the boards of a snapshot in a plain object, where assigning to that key sets the prototype instead, so such a board is missing from the snapshot. Here every board name is a key like any other.
- Crashes.SyncedSurvives: has the vote between handlers only; within one it may be cleared on disk, because stepping down at an equal term clears it.
- Wal.LoadAfterTornWrite: is about one crash; what happens after further appends is Wal.TornLineSwallowsNextAppend and Wal.TornLineCorruptsLaterAppends.
- RaftNode.RaftNode.HandleAppendEntries: keeps the node valid for batches with consecutive indices after the previous one, and InstallSnapshot for strokes filed under their own board, because every sender in the repository produces only such messages; what the handlers compute is stated for all messages.
- Wal.LoadRoundTrip: takes the JSON encoding as any encoding that reads back what it wrote, uses no line break and has no readable strict prefix (`Wal.GoodCodecsExist` gives one); in `Storage.dfy` the log file is the sequence of entries that this round trip yields.
- `votes`: the vote count of a running election is a local variable of `runElection`; here it is a set held by the node, so a repeated reply is counted once, as one reply per request is in the source.
- `leaderId` and `leaderAddr`: routing hints, without effect on what is proved; with them leader-hint retries.
- `driveReplication`: coalescing sends to one peer only removes interleavings; any number of requests may be in flight here.
- Election timers, heartbeats and timeouts: timing; a timeout may fire at any non-leader step and a request may be sent, lost or delayed at any time.
- File system calls: a replaced file is replaced atomically, as the rename gives, and every write has reached the disk when it returns.
- Board records are replaced rather than grown in place inside the node's maps: aliasing between a list handed out and the list updated later is not modelled.
- `MemoryPersistence`: keeps nothing, so nothing is claimed across its restarts.
- Gateway presence, sockets, authentication, validation and rate limits; cluster status; metrics and logging.
- Client join in midway, rollback of optimistic edits, reconnecting and drawing: `join_ack` carries only visible strokes, so a later redo falls outside the agreement claim.
