/** The values that nodes store and exchange: log entries, snapshots, messages and cluster configurations. */
module Types {

  datatype Option<+T> = None | Some(value: T)

  datatype Role = Follower | Candidate | Leader

  /** What a log entry or the store holds for a key: nothing, or the text of a command's value part. */
  datatype Value = Nil | Text(text: string)

  /** The payload of a CONFIG_CHANGE entry; `NoChange` stands for an absent payload. */
  datatype ConfigChange = NoChange | AddServer(nodeId: int) | RemoveServer(nodeId: int) | FinalizeConfig

  datatype Entry = Entry(term: nat, command: string, key: string, value: Value, change: ConfigChange)

  type Data = map<string, Value>

  datatype Snapshot = Snapshot(lastIncludedIndex: nat, lastIncludedTerm: nat, data: Data)

  /** The term, vote and log as one saved record. */
  datatype Saved = Saved(term: nat, votedFor: int, log: seq<Entry>)

  /** Everything a node finds again after a crash. */
  datatype Disk = Disk(state: Option<Saved>, snapshot: Option<Snapshot>, store: Data)

  datatype Config = Config(nodes: set<int>, index: nat)

  datatype ConfigState = ConfigState(
    oldConfig: Config,
    newConfig: Option<Config>,
    inTransition: bool,
    jointConfigIndex: nat,
    finalConfigIndex: nat)
  {
    /** A pending configuration exists while a change is in progress. */
    predicate Valid() {
      inTransition ==> newConfig.Some?
    }

    /** The configuration a change is heading for, or the current one. */
    function Current(): Config {
      if inTransition && newConfig.Some? then newConfig.value else oldConfig
    }
  }

  datatype VoteRequest = VoteRequest(term: nat, candidate: int, lastLogIndex: int, lastLogTerm: nat)

  datatype AppendArgs = AppendArgs(
    term: nat,
    leaderId: int,
    prevLogIndex: int,
    prevLogTerm: nat,
    leaderCommit: int,
    entries: seq<Entry>)

  datatype InstallArgs = InstallArgs(term: nat, leaderId: int, lastIncludedIndex: nat, lastIncludedTerm: nat,
        data: Data)

  /** What a leader sends to a follower on a heartbeat. */
  datatype Outgoing = SendAppend(args: AppendArgs) | SendSnapshot(install: InstallArgs)

  /** What the caller of a remote append sees: an error (lost, timed out or refused), or a reply. */
  datatype AppendReply = NoReply | Reply(success: bool, term: nat)

  /** What the caller of a remote snapshot installation sees. */
  datatype InstallReply = NoInstallReply | Installed(term: nat)
}
