/** Data exchanged and kept by the Raft servers. */
module RaftTypes {

  import opened Wrappers

  /** A client command; the head entry of a log holds none. */
  datatype Command = NoCommand | Command(payload: string)

  datatype Entry = Entry(index: nat, term: nat, command: Command)

  type Log = seq<Entry>

  /** The entry a fresh log starts with. */
  const Dummy := Entry(0, 0, NoCommand)

  datatype Role = Leader | Candidate | Follower

  // ---------- Remote procedure calls

  datatype VoteArgs = VoteArgs(term: nat, candidateId: nat, lastLogIndex: nat, lastLogTerm: nat)

  datatype VoteReply = VoteReply(term: nat, granted: bool)

  datatype AppendArgs = AppendArgs(
    term: nat, leaderId: nat, prevLogIndex: nat, prevLogTerm: nat, entries: Log, leaderCommit: nat)

  datatype AppendReply = AppendReply(term: nat, success: bool, conflictIndex: nat)

  /**
   A snapshot is identified with the log prefix whose effect it records, up to and
   including the entry at `lastIncludedIndex`.
   */
  datatype InstallArgs = InstallArgs(
    term: nat, leaderId: nat, lastIncludedIndex: nat, lastIncludedTerm: nat, snapshot: Log)

  // ---------- State of one server

  /** What `persist` writes. */
  datatype Saved = Saved(term: nat, votedFor: int, logs: Log)

  /** The persister: the saved Raft state, if any, and the saved snapshot. */
  datatype Disk = Disk(state: Option<Saved>, snapshot: Log)

  datatype ApplyMsg = CommandMsg(entry: Entry) | SnapshotMsg(snapshot: Log, index: nat)

  /** The applier goroutine: sending a batch that reaches index `upTo`, or waiting after one that did. */
  datatype Applier = Waiting(upTo: nat) | Sending(queue: seq<ApplyMsg>, upTo: nat)

  /**
   The service above a server.  It starts a while after the server does.  `channel` holds what the applier has
   sent and the service has not taken out, `received` is the index of what it took out last, and `applied` is
   the log prefix whose effect the service's state is.
   */
  datatype Service = Service(serving: bool, channel: seq<ApplyMsg>, received: nat, applied: Log)

  /**
   The fields of a running server.  `grantedVotes` and `awaiting` belong to the closure
   that counts the votes of the current election: `awaiting` holds the peers whose call has not
   returned.
   */
  datatype Server = Server(
    role: Role,
    currentTerm: nat,
    votedFor: int,
    logs: Log,
    commitIndex: nat,
    lastApplied: nat,
    nextIndex: seq<nat>,
    matchIndex: seq<nat>,
    hasSnapshot: bool,
    grantedVotes: nat,
    awaiting: set<nat>,
    applier: Applier,
    service: Service,
    disk: Disk)

  // ---------- Comparing logs

  function Min(a: int, b: int): int {
    if a < b then a else b
  }

  function Max(a: int, b: int): int {
    if a > b then a else b
  }

  /** Two logs hold the same entries at positions `0..k`. */
  predicate Agree(a: Log, b: Log, k: nat) {
    k <= |a| && k <= |b| && forall i :: 0 <= i < k ==> a[i] == b[i]
  }

  function LastTerm(w: Log): nat
    requires |w| > 0
  {
    w[|w| - 1].term
  }

  /** Section 5.4.1 of the Raft paper: `a` is at least as up-to-date as `b`. */
  predicate UpToDate(a: Log, b: Log)
    requires |a| > 0 && |b| > 0
  {
    LastTerm(a) > LastTerm(b) || (LastTerm(a) == LastTerm(b) && |a| >= |b|)
  }
}
