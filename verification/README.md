# A verified model of MultiRaft

This project models a Raft stack in Dafny 4.11 and proves what it is for. It has four parts.

**Raft consensus.** `RaftServer` holds every locked region of a server as a function on values, and `RaftNode` holds
the same regions as methods of a class that updates log, arrays and fields in place; each method is proved to do what
its function says. `Cluster` is the state machine of all servers and of every message ever sent: any server may time
out, crash, restart, take a command, compact or run its applier at any time, and requests and replies may be lost,
delayed, reordered or repeated. `Consensus` is an abstract protocol with a history of votes, leaders' logs,
acknowledgements and commits. `ClusterInv`, `ClusterElections`, `ClusterReplication` and `ClusterSnapshots` prove that
every step of the cluster is a step of the protocol. `RaftSafety` draws the conclusions over whole runs: State Machine
Safety, Leader Completeness, Election Safety, absence of panics, the order of delivery. Snapshots and their
installation are part of all of this. `RaftHandlers` states, for every kind of step in any run, what the server then
holds, has committed and sends, in terms of whole logs. `RaftMatching` says when Log Matching holds and `GraftRun` has
two concrete runs that break it; `RaftValidity` proves that nothing is in a log that no client submitted;
`LogCompaction` relates compacted and whole logs; and `RaftBackoff` bounds the rejections a leader can get and says
exactly when it repairs a follower's log, with `BackoffRun` a run after which it does not.

**Key-value service.** `KvService` is the apply loop with duplicate suppression, as a class and as a replay of the log;
`KvReplicas` puts one service on each server of a running cluster. `KvClients` adds the handlers and the clients with
their retries, and `KvHandlers` says that requests are taken up and answered. `KvOrder` and `KvLinearizable` prove the
main result of this part: whatever the cluster, the network and the clients do, the operations of all clients are
linearizable, as operations on one map.

**Shard controller.** `Rebalance` is the allocation of shards to groups as a function, with its balance and optimality;
`ShardConfig` is the in-place algorithm that computes it, for any number of shards; `ShardHistory` is the history of
configurations.

**Linearizability checker.** `Linearizability` defines what is to be decided. `EntryList` is the doubly linked list
that is unlinked and relinked in place, `Bitset` the packed sets, `SearchSpace` what the search knows, `SearchCoverage`
why it misses nothing, and `Checker` the search itself. `Timestamps` goes from times to events, `Locality` and
`KvModel` justify splitting a history by key, and `Verdict` is the collector of the answers with its timeout and kill
flag.

`dafny verify dfyconfig.toml` checks the whole project. `Wrappers`, `FiniteSets`, `Quorums`, `Sorting` and `Sessions`
are shared helpers.

## How the model relates to the code

- A region that runs under a server's lock is one atomic step. Timers only decide when a step runs, so every step is
  enabled at any time.
- `net` holds every message ever sent and a message may be received any number of times. Only the answers of one
  election are received at most once each, because each call returns at most once and `grantedVotes` is a counter.
- A snapshot is identified with the log prefix whose effect it records; persisted bytes decode to what was encoded.
- The channel from a server to its service holds any number of messages, so that every capacity is covered; the
  service takes them out one at a time. A service starts some time after its server and reads the snapshot it finds
  then, which may be newer than the one its server started with.
- A handler keeps waiting as long as its server runs, and may be woken whether or not its server still leads, so that
  every timeout and every answer of the code is covered. A client takes any successful reply to its command, from any
  attempt. Random client ids and operation numbers are taken to be unique.
- The code bounds a follower's commit index by its last index, where Figure 2 of the Raft paper says "index of last
  new entry". `LeaderCommitWithinRequest` and `FollowerCommitsLeadersEntries` show that this is sound here.
- The code keeps the entries beyond an installed snapshot without comparing terms, where section 7 of the paper
  compares them. State Machine Safety and Leader Completeness hold all the same; Log Matching does not.
  `LogMatchingExactly` says when it does, in every run and at every moment: when no two servers share the first entry
  above both dummies and differ right below it. There is no such pair as long as no installation has kept entries of
  another history (`LogMatching`). `InstallMatches` says which installations break it at once (`LogMatchingFails` is a
  run with one); a later append can expose an earlier installation (`AppendExposesGraft`).
- A follower whose log starts past PrevLogIndex answers with term 0, which the leader ignores. `RepairedExactly` shows
  that nothing else keeps a leader that talks to a follower undisturbed from repairing its log, and
  `FollowerLeftBehind` that this does happen. It lasts until an earlier answer arrives after all or the leader compacts
  its own log further.
- A command that is older than one already applied for the same client is ignored for good. `ExactlyOnce` therefore
  needs each client's commands to enter the log in order, and `LostWithoutOrder` shows why. `LogInClientOrder` proves
  that the clients of this service, which wait for each command to return, do so.
- The order in which Go yields the keys of a map is left open wherever a map is iterated. The sort of entries is open
  too: the results about sorted entries hold for every order that the comparison allows.
- A 64-bit word is the sequence of its bits; other integers are unbounded.
- The kill flag is what each look at it sees, as a function from the number of the look; the timeout is a step that
  may happen at any moment.

## Model

| member | source | states |
|---|---|---|
| RaftSafety.StateMachineSafety | src/raft/raft_append_entry.go:89-162 | In every run, any two servers at any two moments hold the same entry at every index that both have committed (section 5.4.3 of the Raft paper); runs may crash, restart, compact and install snapshots |
| RaftSafety.LeaderCompleteness | src/raft/raft_append_entry.go:89-105 | Whatever a leader has committed is held, at the same index, by every server that is leader of a later term at any moment of the run, whichever comes first (section 5.4) |
| RaftSafety.ElectionSafety | src/raft/raft_election.go:4-77 | Two servers that are leaders of the same term, at any moments of a run with crashes and restarts, are the same server (section 5.2) |
| RaftMatching.LogMatchingExactly | src/raft/raft_append_entry.go:108-162 | Log Matching, exactly (section 5.3 of the Raft paper): at every moment of every run, same index and term on any two servers means the same prefix, if and only if no two servers meet in a seam, that is, share the first entry above both dummies by term and differ in the term right below it |
| RaftMatching.MatchExactly | src/raft/raft_append_entry.go:108-162 | The same if and only if for any two servers at any two moments |
| RaftMatching.LogMatching | src/raft/raft_append_entry.go:128-155 | In particular it holds at any moment up to which no step has grafted (installed a snapshot into a longer log whose entry at the end of the snapshot has another term) |
| RaftMatching.LogMatchingOverTime | src/raft/raft_append_entry.go:128-155 | The same for the logs of any two servers at any two moments, also of one server with its own past: it holds of a whole run if and only if no step grafts |
| RaftMatching.InstallMatches | src/raft/raft_snapshot.go:15-54 | From a state in which the logs of all servers match, handling a request to install a snapshot leaves them matching if and only if it does not split: it grafts, and another server holds the entry right after the snapshot, with the same term, too |
| RaftMatching.InstallHeld | src/raft/raft_snapshot.go:15-54 | What a server holds after a request to install a snapshot: the snapshot's prefix and what lay beyond it, or what it held before |
| RaftMatching.CommittedMatch | src/raft/raft_snapshot.go:15-54 | With grafts or without: whatever one server has committed, any server at any moment that has the same term at that index has the same prefix |
| RaftMatching.GraftBreaks | src/raft/raft_snapshot.go:36-46 | Every graft breaks matching over time: the server's logs before and after agree beyond the snapshot and differ at its end |
| RaftMatching.GraftedLog | src/raft/raft_snapshot.go:36-46 | Where the logs before and after a graft fail to match: at the index right after the snapshot |
| GraftRun.LogMatchingFails | src/raft/raft_snapshot.go:36-47 | A run of five servers that ends with two servers whose logs, at that one moment, do not match, because the entries beyond an installed snapshot are kept without comparing terms |
| GraftRun.AppendExposesGraft | src/raft/raft_append_entry.go:108-162 | A run in which the logs of all servers match after such an installation, and an ordinary append, delayed until then, breaks matching |
| RaftSafety.StepKeeps | src/raft/raft_append_entry.go:20-162 | Every enabled step runs without a panic, keeps the inductive invariant of servers, messages and history, and only adds to the history |
| RaftSafety.NoPanic | src/raft/raft_append_entry.go:41-43 | After any run, no enabled step hits the explicit panic, the index panic of the log or an index out of range |
| RaftSafety.ReplicationBounds | src/raft/raft_append_entry.go:26-54 | Every leader has 1 <= nextIndex <= lastIndex + 1 and matchIndex <= lastIndex for every peer |
| RaftSafety.ConflictIndexPositive | src/raft/raft_append_entry.go:79-83 | A rejection that a leader processes carries a conflict index of at least one and at most PrevLogIndex |
| RaftSafety.PersistedAlways | src/raft/raft.go:205-235 | At every moment a restart would find exactly the current term, vote and log |
| RaftSafety.CompactedAlways | src/raft/raft_log.go:40-60 | At every moment the log a server keeps is its whole log with a prefix replaced by the snapshot on its disk, and indices run without gap |
| RaftSafety.LeaderCommitWithinRequest | src/raft/raft_append_entry.go:45-54 | Every AppendEntries request ever sent has LeaderCommit <= PrevLogIndex + number of entries |
| RaftSafety.FollowerCommitsLeadersEntries | src/raft/raft_append_entry.go:157-160 | What a server has committed equals what the leader of its term, or of a later one, holds there, although Min(LeaderCommit, lastIndex) is the only bound |
| RaftSafety.DeliveredInOrder | src/raft/raft.go:153-203 | A service takes a command that is exactly the one after what it took last, already part of its state or the next one, or a snapshot strictly ahead of what it took last |
| RaftSafety.InStepStays | src/raft/raft.go:153-203 | A service that reflects exactly what it has taken goes on doing so until it is started anew |
| RaftValidity.NothingInvented | src/raft/raft.go:90-104 | Every entry that any server holds at any moment is a command that a client submitted before |
| RaftSafety.ServicesAgree | src/raft/raft.go:153-203 | What two services reflect, at any two moments of a run, is one a prefix of the other |
| RaftHandlers.TimeoutAsks | src/raft/raft_election.go:4-21 | A timeout makes a candidate of the next term that has voted for itself and counts one vote, and asks exactly the other servers, with the last index and term of the whole log it holds |
| RaftHandlers.VoteAnswered | src/raft/raft_election.go:54-77 | A vote is granted if and only if the request is not of an earlier term, the server can still vote in that term (a new term, no vote yet, or this candidate) and the log the candidate held when it asked is at least as up-to-date as the server's own, by the definition of section 5.4.1 of the Raft paper; the reply carries the larger of both terms, and vote, role and term afterwards are stated for every case |
| RaftHandlers.VoteCounted | src/raft/raft_election.go:25-47 | A candidate counts a vote granted in its term once, leads as soon as the votes are more than n / 2, with every nextIndex at the end of its log, and steps down on a later term; other answers change nothing |
| RaftHandlers.CommandTaken | src/raft/raft.go:90-104 | A leader appends exactly the command, with the next index and its term, behind all it holds; nobody else takes it |
| RaftHandlers.RoundSent | src/raft/raft_append_entry.go:20-54 | A leader sends a peer all it holds from nextIndex on, with the index and term before that and its commit index, or its snapshot with the whole compacted prefix; nobody else sends |
| RaftHandlers.AppendAnswered | src/raft/raft_append_entry.go:108-162 | An append succeeds if and only if it is not of an earlier term and the server holds PrevLogIndex with PrevLogTerm; then the server holds its log up to there and every sent entry, keeps what follows exactly if nothing sent was missing, and its commit index is Max(old, Min(LeaderCommit, last index)); otherwise log and commit index stay, and the conflict index is the end of the log, or the last index before PrevLogIndex with another term, or else the first one above the dummy; a request from below the dummy is answered with term 0 and the index after the dummy |
| RaftHandlers.AnswerProcessed | src/raft/raft_append_entry.go:66-105 | An accepted round raises matchIndex and nextIndex of that peer, and the commit index becomes the highest index above the old one whose entry has the current term and that a majority of the servers holds by matchIndex, if there is one; a rejection changes only nextIndex; a later term ends the leadership; stale answers change nothing |
| RaftHandlers.RuleIsMajority | src/raft/raft_append_entry.go:90-102 | An index may be committed if and only if its entry has the current term and leader and peers with a matchIndex at least as large are a majority |
| RaftHandlers.InstallAnswered | src/raft/raft_snapshot.go:15-54 | A snapshot beyond the commit index replaces the log up to its last index and keeps what lay beyond, and commit and applied index move to it; one that is not beyond changes no log; one of an earlier term changes nothing |
| RaftHandlers.InstallProcessed | src/raft/raft_snapshot.go:56-69 | The leader that sent it in its present term takes the snapshot's last index as matchIndex; a later term ends the leadership |
| RaftHandlers.SnapshotTaken | src/raft/raft_snapshot.go:3-13 | Compacting changes nothing of what the server holds: the dummy moves to the end of what the service reflects, and the disk has that prefix |
| RaftHandlers.Restarted | src/raft/raft.go:205-235 | A restart finds term, vote and log as they were, and begins as a follower with the snapshot applied |
| RaftHandlers.DeliveryProgresses | src/raft/raft.go:153-203 | Every step of the applier and of the service lowers a bound on the steps they still take, and leaves log and commit index alone |
| RaftHandlers.RestIsDelivered | src/raft/raft.go:153-203 | When none of these steps is enabled, the service reflects exactly what its server has committed |
| Quorums.QuorumsMeet | src/raft/raft_election.go:32 | Any two majorities (more than n / 2 of n) of any cluster size share a server |
| Consensus.WinnerHolds | src/raft/raft_election.go:29-38 | A candidate that a majority voted for holds every entry that a majority could still confirm in an earlier term |
| Consensus.UpToDateHolds | src/raft/raft_log.go:98-104 | A log at least as up-to-date as one that holds a choosable entry holds it too |
| Consensus.ElectKeeps | src/raft/raft_election.go:29-38 | Becoming leader with the votes of a majority keeps the protocol invariant |
| Consensus.ExtendKeeps | src/raft/raft.go:90-104 | A leader that appends an entry of its term keeps the protocol invariant |
| Consensus.SetLogKeeps | src/raft/raft_append_entry.go:149-155 | Replacing a server's log by one that keeps everything it has confirmed keeps the protocol invariant |
| Consensus.CommitKeeps | src/raft/raft_append_entry.go:89-105 | Committing an entry of the current term that a majority confirmed keeps the protocol invariant |
| Consensus.CommitHeld | src/raft/raft_append_entry.go:89-105 | The prefix up to a commit is shared by the leaders of all later terms |
| ClusterElections.TimeoutStep | src/raft/raft.go:111-114 | A timeout (new term, own vote, vote requests) keeps the link between the server and the history of the protocol |
| ClusterElections.VoteStep | src/raft/raft_election.go:54-77 | Answering a vote request keeps that link, and a granted vote is on record (when it is granted is RaftHandlers.VoteAnswered) |
| ClusterElections.VoteReturnedStep | src/raft/raft_election.go:25-47 | Counting a returned vote keeps that link: every counted vote comes from a distinct peer |
| ClusterReplication.ClientStep | src/raft/raft.go:90-104 | Start keeps that link |
| ClusterReplication.SentOk | src/raft/raft_append_entry.go:26-54 | What a leader sends, entries or snapshot, is backed by its log and its commits |
| ClusterReplication.AppendStep | src/raft/raft_append_entry.go:108-162 | Handling any AppendEntries request ever sent, however late, keeps that link, and a success is backed by the follower's log |
| ClusterReplication.AppendReturnedStep | src/raft/raft_append_entry.go:66-105 | Processing any answer ever sent keeps that link, with the commit rule |
| ClusterReplication.CommitRuleConfirms | src/raft/raft_append_entry.go:90-102 | The counting loop commits only what a majority has confirmed in the current term |
| ClusterSnapshots.InstallStep | src/raft/raft_snapshot.go:15-54 | Installing any snapshot ever sent keeps that link, also when a suffix of another term is kept |
| ClusterSnapshots.InstallReturnedStep | src/raft/raft_snapshot.go:56-69 | Processing the answer to a snapshot keeps that link |
| ClusterSnapshots.CompactStep | src/raft/raft_snapshot.go:3-13 | Compacting the log keeps that link |
| ClusterSnapshots.RestartStep | src/raft/raft.go:205-235 | Crash and restart keep that link |
| ClusterSnapshots.CollectLinks | src/raft/raft.go:165-191 | What the applier collects continues what is on its way to the service, also after a snapshot was taken or installed in the middle of a batch |
| ClusterSnapshots.SendLinks | src/raft/raft.go:193-195 | Putting one message into the channel keeps that link |
| ClusterSnapshots.FinishLinks | src/raft/raft.go:197-201 | Recording the batch as applied keeps that link, also after an installation in between |
| ClusterSnapshots.ReceiveLinks | src/kvraft/server.go:99-126 | A service that takes a message out keeps that link; the message is the next committed command or a committed snapshot ahead |
| ClusterSnapshots.StartServiceLinks | src/kvraft/server.go:43-53 | A service that starts after its server, and so may find a newer snapshot than its server did, keeps that link |
| ClusterSnapshots.CollectReads | src/raft/raft.go:179-190 | The applier reads within the log, and what it queues is the committed part of the whole log not yet applied |
| RaftNode.Raft.constructor | src/raft/raft.go:51-87 | A new server has exactly the state restored from its persister |
| RaftNode.Raft.WriteDisk | src/raft/raft.go:205-216 | Persisting changes the persister only, to the current term, vote and log |
| RaftNode.Raft.BeginElection | src/raft/raft_election.go:4-21 | The method's new state and request are those of the step StartElection of the cluster model |
| RaftNode.Raft.RequestVote | src/raft/raft_election.go:54-77 | The method's new state and reply are those of HandleRequestVote, which RaftHandlers.VoteAnswered states exactly |
| RaftNode.Raft.ResetPeers | src/raft/raft_election.go:34-38 | The loop sets matchIndex to 0 and nextIndex to lastIndex + 1 for every peer |
| RaftNode.Raft.CountVote | src/raft/raft_election.go:25-47 | The vote-counting closure's new state is that of VoteReturned |
| RaftNode.Raft.Propose | src/raft/raft.go:90-104 | The new state is that of Start; a leader returns index and term of the entry it appended |
| RaftNode.Raft.AppendOneRound | src/raft/raft_append_entry.go:20-54 | The request built is that of Send: a snapshot below the dummy, else the whole suffix |
| RaftNode.Raft.FindConflict | src/raft/raft_append_entry.go:136-142 | The loop finds the start of the conflicting term in reach |
| RaftNode.Raft.MergeEntries | src/raft/raft_append_entry.go:149-155 | The loop cuts at the first missing entry and appends the rest |
| RaftNode.Raft.MatchEntries | src/raft/raft_append_entry.go:123-161 | Consistency check, merge and follower commit are those of MatchAppend |
| RaftNode.Raft.AppendEntries | src/raft/raft_append_entry.go:108-162 | The method's new state and reply are those of HandleAppend |
| RaftNode.Raft.CountHolding | src/raft/raft_append_entry.go:91-96 | The loop counts the other peers whose matchIndex reaches an index |
| RaftNode.Raft.AdvanceCommitIndex | src/raft/raft_append_entry.go:89-105 | Only commitIndex changes, to what CommitScan finds: by RaftHandlers.ScanCommits the highest index that a majority holds in the current term |
| RaftNode.Raft.ProcessAppendReply | src/raft/raft_append_entry.go:66-88 | The method's new state is that of AppendReturned |
| RaftNode.Raft.Snapshot | src/raft/raft_snapshot.go:3-13 | The method's new state is that of Compact |
| RaftNode.Raft.ReplaceLog | src/raft/raft_snapshot.go:36-46 | The log becomes a dummy for the snapshot followed by the entries beyond it |
| RaftNode.Raft.InstallSnapshot | src/raft/raft_snapshot.go:15-54 | The method's new state and reply are those of HandleInstall |
| RaftNode.Raft.TakeSnapshot | src/raft/raft_snapshot.go:36-50 | Log, commit index, applied index, disk and flag are those of Installed |
| RaftNode.Raft.ProcessInstallReply | src/raft/raft_snapshot.go:56-69 | The method's new state is that of InstallReturned |
| RaftNode.Raft.CollectBatch | src/raft/raft.go:165-191 | The first locked region of the applier is Collect |
| RaftNode.Raft.SendMessage | src/raft/raft.go:193-195 | One iteration of the sending loop is SendOne |
| RaftNode.Raft.FinishBatch | src/raft/raft.go:197-201 | The second locked region of the applier is Finish |
| RaftServer.CommitScan | src/raft/raft_append_entry.go:90-103 | The scan returns the highest index above the commit index that the commit rule allows, or the commit index (what the rule allows is RaftHandlers.RuleIsMajority) |
| RaftServer.InstalledKeeps | src/raft/raft_snapshot.go:36-46 | After an installation every entry beyond the snapshot is as before, and the log ends where it ended or with the snapshot |
| RaftLog.FirstMissing | src/raft/raft_append_entry.go:149-150 | The first sent entry that the log does not hold with the same term; all before it are held |
| RaftLog.MergeKeepsBelow | src/raft/raft_append_entry.go:149-155 | Merging leaves everything below the sent entries as it was |
| RaftLog.MergeHasSent | src/raft/raft_append_entry.go:149-155 | The merged log has every sent entry by index and term, and from the first missing one on exactly as sent |
| RaftLog.MergeEnds | src/raft/raft_append_entry.go:149-155 | If nothing was missing the log is unchanged; otherwise it ends with the last sent entry |
| RaftLog.ConflictIs | src/raft/raft_append_entry.go:138-142 | The scan back passes only entries of the conflicting term and stops at another term or right above the dummy |
| RaftLog.CompactedLog.constructor | src/raft/raft_log.go:7-12 | A new log holds the dummy only |
| RaftLog.CompactedLog.SetLogs | src/raft/raft_log.go:18-21 | Replaces the entries |
| RaftLog.CompactedLog.ClearDummyEntryCommand | src/raft/raft_log.go:23-25 | Clears the command of the dummy only |
| RaftLog.CompactedLog.SetDummy | src/raft/raft_log.go:27-32 | Sets index and term of the dummy only |
| RaftLog.CompactedLog.AppendEntries | src/raft/raft_log.go:62-68 | Appends the entries |
| RaftLog.CompactedLog.Trunc | src/raft/raft_log.go:70-73 | Cuts the log before an index |
| LogCompaction.SameEntries | src/raft/raft_log.go:40-46 | A compacted log and the whole log have the same last index, the same terms from the dummy on and the same entries above it |
| LogCompaction.SameSlices | src/raft/raft_log.go:75-85 | Slices above the dummy are the same |
| LogCompaction.SameMatch | src/raft/raft_log.go:91-96 | matchLog gives the same answer at or above the dummy |
| LogCompaction.UpToDateExactly | src/raft/raft_log.go:98-104 | isLogUpToDate, on a compacted log, answers whether a log with that last index and term is at least as up-to-date as the whole log, by the definition of section 5.4.1 of the Raft paper |
| LogCompaction.SameUpToDate | src/raft/raft_log.go:98-104 | isLogUpToDate gives the same answer on both, even when everything is compacted (which answer is UpToDateExactly) |
| LogCompaction.TruncCommutes | src/raft/raft_log.go:70-73 | Truncating commutes with compaction |
| LogCompaction.AppendCommutes | src/raft/raft_log.go:62-68 | Appending commutes with compaction |
| LogCompaction.MergeCommutes | src/raft/raft_append_entry.go:149-155 | A follower's merge commutes with compaction |
| LogCompaction.CompactionKeeps | src/raft/raft_snapshot.go:10-11 | Compacting further leaves the whole log the same |
| RaftBackoff.RejectionBacksOff | src/raft/raft_append_entry.go:128-145 | A rejection strictly lowers nextIndex, leaves both logs alone and uses up one of the follower's remaining terms |
| RaftBackoff.AcceptanceRepairs | src/raft/raft_append_entry.go:66-88 | An accepted round makes the follower agree through the leader's last index, and the leader knows it |
| RaftBackoff.MergeRepairs | src/raft/raft_append_entry.go:149-155 | After the merge the follower holds the leader's entries above its dummy through the leader's last index |
| RaftBackoff.FollowerAnswers | src/raft/raft_append_entry.go:123-161 | What a follower answers: success exactly on a match, else the conflict index |
| RaftBackoff.BackoffConverges | src/raft/raft_append_entry.go:20-145 | With nothing else happening, at most one rejection more than there are distinct terms in the follower's log; then a round succeeds and repairs the log, or the leader, having compacted further, sends its snapshot |
| RaftBackoff.ReachableSetup | src/raft/raft_append_entry.go:20-54 | Every leader and every server of no later term, at any moment of any run, meet what the results on back-off ask of their logs, whatever was installed: above their dummies the logs match, and where both have committed they agree |
| RaftBackoff.RepairedExactly | src/raft/raft_append_entry.go:20-145 | From any moment of any run, if from then on only a leader and a server of no later term talk: the server ends with the leader's log, and the leader knows it, if and only if nextIndex, or the leader's own dummy plus one if that is more, lies above the server's dummy; it takes at most three round trips, of entries or a snapshot, more than there are distinct terms in the server's log |
| RaftBackoff.AfterSnapshot | src/raft/raft_snapshot.go:15-69 | Once the leader sends its snapshot, that round trip and one of entries leave the follower with the leader's log |
| RaftBackoff.NeverDone | src/raft/raft_append_entry.go:123-127 | Otherwise every answer carries term 0 and is ignored: after any number of round trips nextIndex is still too low and the server's log as it was |
| BackoffRun.FollowerLeftBehind | src/raft/raft_append_entry.go:123-127 | A run that ends with such a pair: a follower that compacted its log after an answer of its was lost |
| KvService.KVServer.constructor | src/kvraft/server.go:40-54 | A new service holds what its snapshot holds, or nothing |
| KvService.KVServer.ApplyCommand | src/kvraft/server.go:104-113 | Applying a command in place continues the replay of the log |
| KvService.KVServer.InstallSnapshot | src/kvraft/server.go:159-175 | Both maps are replaced by those of the snapshot, if it has data |
| KvService.KVServer.SaveState | src/kvraft/server.go:177-183 | Installing saved data gives back exactly the state that was saved |
| KvService.LatestIsLargest | src/kvraft/server.go:145-148 | After any log, a command id is a duplicate exactly when the client has had an id at least as large |
| KvService.IgnoresExactlyRepetitions | src/kvraft/server.go:104-113 | The service ignores exactly the repetitions if and only if each client's commands first appear in the order of their ids |
| KvService.ExactlyOnce | src/kvraft/server.go:104-113 | Then the storage equals plain execution of the first occurrences: each command takes effect exactly once |
| KvService.LostWithoutOrder | src/kvraft/server.go:145-148 | Otherwise a command can be lost: a log of two commands in which it is |
| KvReplicas.ReplicaIsReplay | src/kvraft/server.go:98-183 | On every server whose service has started, at every moment of a run, through snapshots, installations, restarts and late starts, storage and latest ids equal the replay of the log prefix the service reflects |
| KvReplicas.ReplicasAgree | src/kvraft/server.go:98-128 | Two replicas that reflect equally much are equal |
| KvReplicas.CoveredIgnored | src/kvraft/server.go:104-113 | A command that a service receives although its snapshot covers it changes nothing |
| KvClients.StepKeepsWorld | src/kvraft/server.go:56-128 | Every step of the cluster, a handler, a client or the network keeps: what was proposed a client issued, a reply was read from a committed prefix made only of commands issued before, and a client's return has its command in that prefix |
| KvClients.RepeatedOccurs | src/kvraft/server.go:66-70 | When a service takes a client's latest command for a repetition, the prefix it reflects has that command |
| KvClients.PrefixInvoked | src/kvraft/server.go:56-74 | Every command in what any service ever reflected was issued by a client |
| KvHandlers.RequestTaken | src/kvraft/server.go:56-80 | After any run, a server that serves takes up any request issued: it answers at once if its service has executed the request, and otherwise registers a handler, and a leader appends the command behind its log |
| KvHandlers.ReceivedIsAnswered | src/kvraft/server.go:83-121 | When a service receives the command a handler waits for, the handler can answer and a client that still waits can return; a read answers the map that the commands up to this one leave (the code wakes a handler only while its server leads in the command's term; here it may be woken always) |
| KvOrder.LogInClientOrder | src/kvraft/client.go:47-71 | Because a client waits for each command to return before it issues the next, each client's commands first appear in the log in the order of their ids |
| KvOrder.RankRespectsTime | src/kvraft/client.go:47-71 | An operation that returned before another was called takes effect before it |
| KvOrder.CommandAt | src/kvraft/server.go:104-113 | One map, executing what takes effect at a command of the log, goes on holding what the service holds |
| KvOrder.StoryLinearizable | src/kvraft/server.go:56-128 | If a log explains what every client was told, there is one order of all operations that a single map accepts and that respects real time |
| KvLinearizable.WorldTells | src/kvraft/server.go:56-128 | At any moment the longest prefix that any service reflects explains what every client was told |
| KvLinearizable.ClientsSeeOneMap | src/kvraft/server.go:56-128 | Linearizability: at any moment of any run, with crashes, lost, delayed and repeated requests and replies, retries at other servers, snapshots and changes of leader, the operations of all clients have one order that a single map accepts and that respects real time; what has not returned is given some answer |
| KvLinearizable.MeasuredLinearizable | src/kvraft/client.go:47-71 | Once all have returned, the history the clients measured is itself linearizable |
| KvLinearizable.NeverIllegal | src/porcupine/checker.go:274-353 | On such a history the checker never answers Illegal |
| Rebalance.ReallocatedIsBalanced | src/shardctrler/common.go:87-132 | For any assignment and any set of groups, every shard goes to an existing group and group sizes differ by at most one; without groups, to group 0 |
| Rebalance.MovesFewest | src/shardctrler/common.go:87-132 | No even assignment over the same groups moves fewer shards whose owner still exists |
| Rebalance.NoGroupGivesAndTakes | src/shardctrler/common.go:87-132 | No group both gives up and receives a shard in one call |
| Rebalance.MovesDownhill | src/shardctrler/common.go:114-122 | A shard of an existing group moves only to a group that had at least two shards fewer |
| Rebalance.GivesSmallestFirst | src/shardctrler/common.go:114-122 | Of the shards it owned, a group gives up those with the smallest numbers |
| Rebalance.JoinMovesOnlyToNewGroups | src/shardctrler/common.go:87-132 | A join to an even assignment moves shards to the new groups only |
| Rebalance.LeaveMovesOnlyOrphans | src/shardctrler/common.go:87-132 | A leave from an even assignment moves the shards of the groups that left only |
| Rebalance.MinGid | src/shardctrler/common.go:53-68 | A group with the fewest shards, the smallest number among those |
| Rebalance.MaxGid | src/shardctrler/common.go:70-85 | A group with the most shards, the smallest number among those |
| Rebalance.EvenFair | src/shardctrler/common.go:114-122 | As many moves as there are shards even out the groups, and every shard still belongs to one |
| ShardConfig.SortedKeys | src/shardctrler/common.go:55-59 | The keys in ascending order, whatever order the map yields them in |
| ShardConfig.GidWithMinimumShards | src/shardctrler/common.go:53-68 | Finds the same group for every order of iteration |
| ShardConfig.GidWithMaximumShards | src/shardctrler/common.go:70-85 | Finds the same group for every order of iteration |
| ShardConfig.Config.constructor | src/shardctrler/server.go:168-169 | The first configuration has number 0, no group and all shards with group 0 |
| ShardConfig.Config.Copy | src/shardctrler/common.go:33-44 | The copy has the next number and the same shards and groups, and shares no array |
| ShardConfig.Config.CollectSurvivors | src/shardctrler/common.go:95-104 | The loop lists the shards of each group that still exists, in order |
| ShardConfig.Config.PlaceOrphans | src/shardctrler/common.go:106-113 | The loop gives each orphaned shard to the emptiest group at that point |
| ShardConfig.Config.EvenOut | src/shardctrler/common.go:114-122 | The loop ends with the groups the specification evens out, every shard listed exactly once (that they are even is Rebalance.EvenFair) |
| ShardConfig.Config.WriteBack | src/shardctrler/common.go:124-131 | Writing the lists back, in any order, gives every shard its group |
| ShardConfig.Config.Unassign | src/shardctrler/common.go:88-93 | Without groups all shards go to group 0 |
| ShardConfig.Config.ReAllocGID | src/shardctrler/common.go:87-132 | The new assignment is a function of the old one and of the set of groups, the same for every order of map iteration |
| ShardHistory.NumberedHistory | src/shardctrler/server.go:124-162 | After any log, configuration i has number i, and the invalid group is in none |
| ShardHistory.HistoryGrows | src/shardctrler/server.go:124-162 | Configurations are only ever appended |
| ShardHistory.IgnoredExactly | src/shardctrler/server.go:126-128 | After any log, a command changes nothing, not even the recorded id, if and only if its client has had an id at least as large |
| ShardHistory.ControllerExactlyOnce | src/shardctrler/server.go:126-152 | If each client's commands first appear in the order of their ids, the configurations are those of executing the first occurrences once each, and they are one more than the first occurrences that are no queries |
| ShardHistory.MoveMovesOne | src/shardctrler/server.go:144-147 | After any log, a fresh move adds one configuration with the next number, in which the named shard belongs to the named group, every other shard to its owner before, and every group has its servers |
| ShardHistory.JoinAddsGroups | src/shardctrler/server.go:130-136 | After any log, a fresh join adds one configuration, in which each joining group has the servers it joined with and every other group the servers it had |
| ShardHistory.LeaveRemovesGroups | src/shardctrler/server.go:137-143 | After any log, a fresh leave adds one configuration, in which exactly the leaving groups are gone and the others keep their servers |
| ShardHistory.SuccessorSettled | src/shardctrler/server.go:130-143 | After a join or a leave the configuration is even and complete, whatever moves came before |
| ShardHistory.AlwaysSettled | src/shardctrler/server.go:124-162 | Without moves every configuration that ever was is even and complete |
| ShardHistory.JoinSparesOldGroups | src/shardctrler/server.go:130-136 | A join after a settled configuration moves shards to joining groups only |
| ShardHistory.LeaveSparesOthers | src/shardctrler/server.go:137-143 | A leave after a settled configuration moves no shard of a group that stays |
| ShardHistory.ShardCtrler.constructor | src/shardctrler/server.go:164-169 | The controller starts with the first configuration |
| ShardHistory.ShardCtrler.ApplyCommand | src/shardctrler/server.go:126-152 | Applying a command in place is the step of the replay, of which IgnoredExactly, MoveMovesOne, JoinAddsGroups and LeaveRemovesGroups say what it does; old configurations stay |
| ShardHistory.NewConfig | src/shardctrler/server.go:129-147 | The new configuration is the successor of the latest one: by MoveMovesOne, JoinAddsGroups, LeaveRemovesGroups and SuccessorSettled what the command asks for |
| ShardHistory.AddGroups | src/shardctrler/server.go:132-134 | The groups are those before with the joining ones added or replaced, in any order of iteration |
| ShardHistory.RemoveGroups | src/shardctrler/server.go:139-141 | The groups are those before without the leaving ones |
| Checker.CheckSingle | src/porcupine/checker.go:179-253 | The search ends; true means linearizable; false means not linearizable, unless the last look at the kill flag saw it set, and only the last look can have; every partial linearization returned is legal and contains its operation, and on success complete; if they were asked for and the search was not killed, the one returned for an operation is a longest one that contains it, and there is none only if no partial linearization contains it |
| Checker.TryCall | src/porcupine/checker.go:194-213 | At a call the search chooses the operation or passes it over, keeps list, stack, bit set and cache consistent, and makes progress |
| Checker.Choose | src/porcupine/checker.go:200-207 | Choosing lifts the pair out of the list, extends stack, bit set and cache, and meets a configuration not met before |
| Checker.Retreat | src/porcupine/checker.go:235-241 | Going back restores the list exactly, the bit set, the state, and stands behind the call |
| Checker.Pass | src/porcupine/checker.go:208-213 | Passing over goes to the next entry still in the list |
| Checker.Prepare | src/porcupine/checker.go:180-189 | Before the loop everything is consistent, and n is the number of operations |
| Checker.CacheContains | src/porcupine/checker.go:145-152 | True exactly when an equal bit set with an equal state is stored under its hash |
| Checker.CachedIffSeen | src/porcupine/checker.go:145-152 | A configuration is in the cache exactly when the search has met it |
| Checker.LiftCall | src/porcupine/checker.go:159-167 | The list then lacks exactly the operations on the stack |
| Checker.UnliftTop | src/porcupine/checker.go:169-177 | The list then lacks exactly the operations left on the stack |
| Checker.StackIds | src/porcupine/checker.go:226-229 | The ids of the stack, from the bottom |
| Checker.Lengthen | src/porcupine/checker.go:219-234 | The stack replaces what was kept for its operations exactly where it is longer |
| SearchSpace.CachedIsRuledOut | src/porcupine/checker.go:200-210 | A cached configuration leads nowhere: pruning loses no solution |
| SearchSpace.StuckAtReturn | src/porcupine/checker.go:214-217 | At a return, no order completes the present choice |
| SearchSpace.Push | src/porcupine/checker.go:200-207 | Choosing keeps what the search knows |
| SearchSpace.Pop | src/porcupine/checker.go:235-241 | Going back keeps it and rules out the choice undone |
| SearchSpace.Skip | src/porcupine/checker.go:208-213 | Passing over an operation that leads nowhere keeps it |
| SearchSpace.StandsOnEntry | src/porcupine/checker.go:190-194 | While the list is not empty the current entry is not nil |
| SearchSpace.Finished | src/porcupine/checker.go:244-252 | An empty list means that the choices are a linearization |
| SearchSpace.PathReachable | src/porcupine/checker.go:200-202 | All configurations met are among finitely many |
| SearchCoverage.StuckIsLongest | src/porcupine/checker.go:214-217 | Stuck with nothing chosen, the search has met every configuration, so that a longest partial linearization is kept for each operation, although the cache lets it visit each configuration only once |
| SearchCoverage.MoveExplores | src/porcupine/checker.go:194-213 | Choosing or passing over an operation keeps: each configuration met is on the stack, or the search is done with it and has kept as long a partial linearization for each of its operations |
| SearchCoverage.RetreatExplores | src/porcupine/checker.go:214-241 | Going back, with what Lengthen keeps, keeps that too |
| Linearizability.SolvableStarts | src/porcupine/model.go:27-42 | A linearization of what is left starts with an operation that nothing left precedes and that leads somewhere |
| Linearizability.FullPartial | src/porcupine/checker.go:244-252 | A partial linearization that has every operation is a linearization |
| EntryList.InsertBefore | src/porcupine/checker.go:70-81 | Links a node in front of another one |
| EntryList.MakeLinkedEntries | src/porcupine/checker.go:121-138 | The list holds the entries in order, linked both ways, and every call knows its return |
| EntryList.Length | src/porcupine/checker.go:83-90 | Counts the nodes |
| EntryList.AddHead | src/porcupine/checker.go:189 | A head in front of the list |
| EntryList.Lift | src/porcupine/checker.go:159-167 | Takes a call and its return out; they and all nodes taken out before keep their own pointers |
| EntryList.Unlift | src/porcupine/checker.go:169-177 | Puts both back where they were |
| EntryList.BypassUnlinks | src/porcupine/checker.go:160-166 | Bypassing a node removes exactly that position |
| EntryList.RestoreRelinks | src/porcupine/checker.go:171-176 | Letting the neighbours point to a node again restores exactly that position |
| Bitset.PutRefines | src/porcupine/bitset.go:29-39 | Setting and clearing a bit add and remove one number |
| Bitset.EqualsIffSameSet | src/porcupine/bitset.go:62-72 | Equal words mean equal sets and the other way round |
| Bitset.PopCountIsSize | src/porcupine/bitset.go:46-52 | The population count is the size of the set |
| Bitset.BitSet.constructor | src/porcupine/bitset.go:10-17 | A new bit set is empty and has room for the bits asked for |
| Bitset.BitSet.Clone | src/porcupine/bitset.go:19-23 | The clone has the same words and shares none |
| Bitset.BitSet.Set | src/porcupine/bitset.go:29-33 | Sets one bit in place |
| Bitset.BitSet.Clear | src/porcupine/bitset.go:35-39 | Clears one bit in place |
| Bitset.HashCode | src/porcupine/bitset.go:46-60 | The loops compute population count xor all words |
| Bitset.Equals | src/porcupine/bitset.go:62-72 | True exactly for equal words |
| Timestamps.MakeEntries | src/porcupine/checker.go:48-60 | The entries are those of the operations, sorted by time with calls before returns |
| Timestamps.PlacedByTime | src/porcupine/checker.go:39-60 | For every order that sorting allows, each call precedes its return and a return precedes a call exactly when it is earlier in time |
| Timestamps.EventsMeanTimes | src/porcupine/checker.go:365-373 | Linearizable in the order of events means linearizable in the order of times |
| Locality.Local | src/porcupine/model.go:28-31 | A history is linearizable over a whole map exactly when the operations on each key are, over that key's value |
| Locality.LegalPerKey | src/models/kv.go:40-54 | An order is accepted by the map exactly when, for each key, its part is accepted by that key's value |
| Locality.WholeFromKeys | src/porcupine/model.go:28-31 | Merging the orders of all keys by the latest call so far gives a linearization of the whole history |
| Locality.OneKeyFromWhole | src/porcupine/model.go:28-31 | A linearization cut down to one key linearizes that key |
| Locality.SubHistorySolvable | src/porcupine/checker.go:365-373 | Renumbering the operations on a key as a history of their own changes nothing |
| KvModel.MapSteps | src/models/kv.go:40-54 | On the whole map a get answers the value of its key, and only a put or an append changes a value, its own key's |
| KvModel.Partition | src/models/kv.go:18-33 | For the keys in dictionary order, without repetition, one part each: that key's operations in their order |
| KvModel.PartitionIsExact | src/models/kv.go:18-54 | A multi-key history is linearizable over the whole map exactly when the part of every key is under the single-key step |
| KvModel.PartsAnswer | src/models/kv.go:18-54 | The parts that Partition returns answer for the whole map, and keep valid times |
| Verdict.CheckPart | src/porcupine/checker.go:365-373 | Sorting and searching one part answers whether it is linearizable in time, as far as the looks at the kill flag allow, in exactly the sense the collector relies on; every partial linearization returned is legal in time, and a longest one if asked for and not killed |
| Verdict.VerdictExactly | src/porcupine/checker.go:280-353 | The verdict of a returned run, by what happened in it: Illegal if and only if the collector took an answer no, Unknown if and only if it timed out without one, Ok if and only if it took the answer yes of every part and did not time out; the kill flag is set if and only if it timed out or took a no without collecting information |
| Verdict.VerdictIsTrue | src/porcupine/checker.go:274-353 | Whatever the order of answers and the moment of a timeout: Ok (given exactly when VerdictExactly says) means all parts are linearizable, Illegal that one is not, Unknown only after a timeout; with information asked for, all searches have finished |
| Verdict.StepKeeps | src/porcupine/checker.go:280-318 | Every step of collector and searches keeps that each answer is counted once and, as long as nobody has seen the kill flag set, is the truth |
| Verdict.KvVerdict | src/porcupine/checker.go:365-373 | For a key-value history the verdict on its parts is the verdict on the whole map |

## Left out

- Timers, tickers, condition variables and goroutine scheduling (src/raft/raft.go): no liveness is claimed beyond a leader and a follower that talk to each other alone and the delivery of what a server has committed to its service.
- The network and the encoding (src/labrpc, src/labgob): modelled as a network that may do anything but invent messages, and as an exact round trip.
- The handlers and clients of the shard controller (src/shardctrler/server.go, client.go): only its apply loop is modelled; its duplicate path answers with an empty configuration. Those of the key-value service are modelled.
- A client that gives up, and answers that are errors: a client of the key-value service retries until it succeeds, so only successful replies can end an operation.
- When a service decides to take a snapshot (needSnapShot): a snapshot may be taken at any time.
- The sharded key-value server (src/shardkv): its handlers are empty.
- Group 0 joining: `ReAllocGID` and the commands of the shard controller are modelled for groups other than the invalid group 0; a move names an existing shard, as an index out of range would panic.
- The event interface of the checker (renumber, convertEntries): only the interface with operations and times.
- Grouping the longest partial linearizations into a set, descriptions and visualization (src/porcupine/visualization.go).
- checkParallel on zero parts: its loop waits for an answer that never comes; the verdict is only about runs in which it returns.
- BackoffConverges: covers a follower whose dummy lies below nextIndex, up to the round that is accepted or carries the snapshot; RepairedExactly covers all pairs and what follows.
- ConflictIs: an index at the dummy is not stepped back from, so only indices above it are stated; RaftHandlers.AppendAnswered states the answer in every case.
