# A model of the distributed key-value store's Raft engine

The repository implements a replicated key-value store on the Raft consensus protocol of Ongaro and Ousterhout
(extended Raft paper, Figure 3 and sections 5.2-5.4 and 7). This project models its engine, `consensus/raft.go`, with
the parts of the store, the persister, the RPC server and the request handlers that its guarantees rest on, and proves
those guarantees.

## How the model is built

**Node functions** (`NodeSpec`). A node is a value `Node`, with its disk beside it. Every handler is a function from a
node to a node and an answer, branch by branch as in the source. `StateMachine` executes entries on a store and folds a
log into one, `Commands` splits commands as `strings.SplitN` does, and `CommitIndex` defines the majority index.

**Objects** (`Consensus`, `Storage`, `Persistence`, `Server`). The source's structs are classes whose methods update
their fields in place, with the source's loops: vote counting, the bubble sort on an array, replica counting, map and
table copying. Each method is proved to take the object's state `State()` exactly where the node function takes it.
`Server.HeartbeatExchange` puts two such objects together and is proved to be the exchange of the cluster below.

**Runs** (`Cluster`, then `History`, `Safety`, `Growth`, `Elections`, `Replication`, `Application`, `Runs`, `Theorems`
and `Stores`). A transition system over any number of nodes, built of the same node functions. The proof carries a
history (who led which term with which log, who voted for whom with which log, what was acknowledged in which term) that
is no part of the system; the theorems in `Theorems` and `Stores` speak of runs only. `CrashRuns` and `Voting` prove
election safety without a history, from votes alone, for runs from any first log; `Candidacy` shows that a whole
election at one node is the timeout and the win or loss of these runs, and `Leadership` follows whom nodes take for
their leader. `FreshClusters` maps every run of a cluster that starts from empty logs, as long as no follower takes
entries unchecked, to a run in which every log has one entry more in front, so that the theorems hold of it too.

**Single nodes over sequences of steps.** `Compaction` relates a node that takes snapshots to one that never does.
`Crashes` follows votes through crashes, and `Durability` what is on disk. `Recovery` replays logs after restarts and
catches followers up by snapshot. `Membership` is the joint-consensus configuration machine, and `Reconfiguration` says
what a leader commits during a change and which members a change leaves. `AppendLaws` says what one append does, and
`HandlerLaws` what each handler promises beside its main effect.

**Limits** (`Scenarios`, `Limits`). Runs spelt out for every cluster that is large enough: one that commits a command,
one after which equally many applied entries do not mean equal stores, one that breaks state machine safety from an
empty first log, and one with crashes in which two nodes lead one term; and from them exactly which clusters are safe.

## The atomic run model

The theorems on runs hold under these hypotheses, all of which are visible in `Cluster` and in `Theorems.Run`:

- (a) Each handler is one step, and a heartbeat exchange is one step, from the leader's role check to the handling of
  the reply. The request or the reply may be lost. Vote requests, votes, and the empty appends that announce a new
  leader travel on their own: each may arrive late, more than once, or never. `AppendLaws.LateAppend` and
  `Crashes.StaleReplyKeepsVote` show what a split exchange would do.
- (b) Membership is fixed, and a node is not its own peer.
- (c) There is no compaction and no CLEAN. `Limits.CleanStrandsCommit` shows what a CLEAN does to the indices.
- (d) A node restarts only when its disk equals its memory. A timeout does not save, so a node that has just stood for
  election cannot restart in a run; `Crashes.StandingIsUnsaved` shows why. `Limits.CrashesElectOneExactly` says what
  becomes of election safety when any node may crash at any time: it holds in clusters of an even number of nodes and
  fails in those of an odd number from three on.
- (e) All logs start from the same non-empty prefix. `Limits.SafeExactly` shows that this is needed as soon as there are
  two nodes: a node without a state file starts from an empty log (`types/consensus.go:103-104`), and a cluster of such
  nodes has a run in which two of them commit different commands at index 2. Election safety does not need it
  (`Voting.ElectionSafety`), and for the rest `FreshClusters.SafeWhenChecked` says which runs are safe without it: all
  those in which nothing is put behind index zero of a log that is not empty.

A refused append reaches its sender as an error (`rpc/server.go:58-64`, `rpc/client.go:84-86`), so the branch that
counts a next index down (`consensus/raft.go:1221-1228`) is modelled but never taken. A leader therefore ships only
entries of its own term, and that is why committing by counting is safe here.

## Where comments and code disagree

- The comment at `consensus/raft.go:707-713` says that only entries of the current term are committed. The code never
  looks at the entry's term: `CanCommit` is passed `rc.currentTerm` at line 760. The model follows the code.
- The comment at `consensus/raft.go:398` says that a snapshot replaces the follower's log. The code keeps whatever lies
  behind the snapshot's index, without comparing terms. The model follows the code.
- `Store.CreateSnapshot` is called a deep copy at `storage/store.go:141`; it copies the map, and the values are text.

Terms are natural numbers; indices are unbounded integers. A missing key of a Go map reads as zero (`NodeSpec.Lookup`).

## Model

| member | source | states |
|---|---|---|
| Voting.ElectionSafety | consensus/raft.go:1030-1113 | over a whole run, from any first log, two nodes that are ever leader in the same term are the same node |
| Voting.OnlyFirstWinnerCountsTwice | consensus/raft.go:549-602 | even with crashes that lose memory, a node that counts for two winners of one term is the first of them, and has granted its vote to the second |
| Voting.EvenClustersElectOne | consensus/raft.go:1056-1086 | in a cluster of an even number of nodes election safety survives crashes that lose a vote |
| Limits.CrashesElectTwo | consensus/raft.go:1031-1033 | in any cluster of an odd number of nodes from three on, a run with a crash in which two nodes lead one term |
| Limits.CrashesElectOneExactly | consensus/raft.go:1030-1113 | no term has two leaders in all runs with crashes if and only if the cluster has an even number of nodes or at most one |
| Theorems.LogsMatch | consensus/raft.go:619-700 | wherever and whenever in a run two logs hold entries of the same term at the same index, they are identical up to it; so no two entries are ever created with one term and index |
| Theorems.LeaderCompleteness | consensus/raft.go:720-765 | what any leader has committed at any time is in the log of every leader of a later term, entries of older terms included |
| Theorems.StateMachineSafety | consensus/raft.go:686-697 | any two nodes, at any two times, agree on every index up to the smaller of their commit indices |
| Theorems.IndicesInOrder | consensus/raft.go:1251-1254 | applied index at most commit index at most last index, in every state of a run |
| Theorems.CommittedPrefixStability | consensus/raft.go:677-697 | what a node has committed is a prefix of its log for ever after, through follower truncation and restarts |
| Theorems.CommitNeverFalls | consensus/raft.go:757-762 | no step lowers a commit index but a restart of that node |
| Theorems.OwnTermShipping | consensus/raft.go:1132-1187 | what a leader ships is the exact window of its log to the end, with the true preceding term, and only entries of its own term |
| CrashRuns.LeaderHasWon | consensus/raft.go:1084-1092 | in every run from any first log, with crashes or without, every leader has won its term at an earlier point |
| Theorems.ShipsBehindElection | consensus/raft.go:1088-1092 | whatever any leader ships starts behind the non-empty log with which it won its term |
| Theorems.RefusalsAreErrors | consensus/raft.go:1190-1228 | in every run from any first log the leader sees success in its own term or an error, so no next index is ever counted down |
| Theorems.RepliesMeanAgreement | consensus/raft.go:650-684 | a follower from which a leader gets a reply holds the leader's whole log, and nothing else if anything was shipped; no agreement is assumed |
| Stores.StoreHasBase | consensus/raft.go:1251-1271 | in every state of a run a store is what the applied entries make of the store that the node last started with |
| Stores.StoreIsFold | consensus/raft.go:1313-1352 | in every state of a run a node holds exactly the fold of the entries applied if and only if they settle every key that it holds |
| Stores.StoresAgree | consensus/raft.go:1251-1268 | nodes that have applied equally much, at any times, hold equal stores if and only if they hold the same for the keys that the applied entries leave alone |
| Stores.StoresAgreeWhenSettled | consensus/raft.go:1251-1268 | so they do when neither holds such a key |
| Stores.CaughtUpIsSettled | consensus/raft.go:1251-1271 | a node that has applied, since its restart, all it ever had holds no such key |
| Stores.StoresAgreeWithoutRestarts | consensus/raft.go:1251-1271 | nodes that never restarted hold equal stores without further condition |
| Stores.RestartedStoreIsAhead | consensus/raft.go:101 | right after a restart the store is the fold of the zero applied entries if and only if it is empty |
| Stores.CaughtUpHolds | consensus/raft.go:1313-1334 | in every run a node that has caught up holds a value for a key if and only if the last applied entry that settles the key is a SET of that value |
| Stores.AppliedSetIsHeld | consensus/raft.go:490-513 | a client's SET that such a node has applied is what it holds, until a later entry settles the key |
| Limits.RestartsPartStores | consensus/raft.go:56-101 | in any cluster of two nodes or more, from any first log, a run after which two nodes have applied equally many entries and hold different stores |
| Limits.StoresFollowExactly | consensus/raft.go:56-101 | equally many applied entries mean equal stores in all runs of a cluster if and only if it has at most one node |
| Safety.LaterLeadersHaveChosen | consensus/raft.go:586-592 | a prefix that a majority acknowledged in a term is in every later term's leader log, from vote quorums and the up-to-date check |
| Safety.LogMatching | consensus/raft.go:650-684 | two logs made of leaders' prefixes agree up to any index where their terms agree |
| Elections.WinnerIsFirst | consensus/raft.go:1056-1086 | a candidate with a majority of genuine votes is the first leader of its term |
| Candidacy.VotesAreGrants | consensus/raft.go:1059-1084 | counting replies one by one gives the number of grants among them |
| Candidacy.LeadsExactly | consensus/raft.go:1084-1114 | an election makes the node leader if and only if it and the granting peers are more than half of all, and otherwise a follower, in the next term |
| Candidacy.ElectionIsEvents | consensus/raft.go:1030-1115 | a whole election is the cluster's timeout followed by its win when the voters and the node are a majority, and by its loss otherwise |
| Candidacy.NoWinWithout | consensus/raft.go:1084-1086 | without that majority the cluster has no such win |
| Leadership.NamedLeaderHasWon | consensus/raft.go:644-648 | in every run, with crashes or without, the leader that a node names has won a term, not one beyond the node's, at an earlier point |
| Replication.CanCommitChooses | consensus/raft.go:287-308 | what counting accepts is held, in the leader's own term, by a majority |
| Replication.ShipsOwnTerm | consensus/raft.go:1168-1187 | the invariant form of own-term shipping |
| Runs.StepKeepsInv | consensus/raft.go:1020-1280 | every step of the cluster keeps the invariant that ties nodes, votes and announcements to the history |
| Scenarios.CommandsGetCommitted | consensus/raft.go:1190-1220 | in any cluster of two nodes or more, from any first log and with any node as leader, a run in which a client's command is committed |
| Limits.EmptyFirstLogIsUnsafe | consensus/raft.go:677-681 | in any cluster of two nodes or more that start from empty logs, a run after which two nodes have committed different commands at index 2 |
| Limits.SafeExactly | consensus/raft.go:656-697 | state machine safety holds in all runs of a cluster if and only if the first log is not empty or there is at most one node |
| FreshClusters.AppendsShifted | consensus/raft.go:619-700 | an append that is checked has the same answer and the same effect on a log with one entry more in front |
| FreshClusters.StepMirrored | consensus/raft.go:1020-1280 | every event of a cluster with empty first logs in which nothing is taken unchecked is one of a cluster with one entry more in front |
| FreshClusters.SafeWhenChecked | consensus/raft.go:671-684 | state machine safety run by run, from any first log: a run is safe in which no entries are put behind index zero of a log that is not empty |
| FreshClusters.LeadersCompleteWhenChecked | consensus/raft.go:720-765 | leader completeness for the same runs |
| FreshClusters.PrefixIsChecked | consensus/raft.go:671-684 | from a non-empty first log every run is of that kind |
| Limits.CleanStrandsCommit | consensus/raft.go:1336-1342 | applying an entry leaves the commit index within the log if and only if the entry is no CLEAN |
| Compaction.CompactionIsInvisible | consensus/raft.go:329-393 | over any sequence of operations, with snapshots whenever everything committed is applied, a compacting node gives the answers, decisions and stores of one that never compacts |
| Compaction.DecisionsHideCompaction | consensus/raft.go:329-393 | with snapshots at arbitrary points, also where the consumer lags, answers and commit decisions are still those of a node that never compacts |
| Compaction.AppendShowsCompaction | consensus/raft.go:650-684 | an append is answered and spliced alike by both if and only if its preceding entry stands in one of the listed relations to the snapshot index |
| Compaction.WindowHidesCompaction | consensus/raft.go:1168-1187 | a follower ahead of the snapshot is shipped the same window |
| Crashes.VotesSurviveCrashes | consensus/raft.go:549-602 | over any sequence of steps and crashes without a CLEAN, a node never grants two candidates its vote in one term |
| Crashes.AllVotesAgree | consensus/raft.go:1031-1033 | when no crash loses the term or vote, votes for oneself agree too |
| Crashes.CrashLosesVote | consensus/raft.go:43-56 | after a crash a second candidate can be voted for in the current term if and only if the disk has an older term, or that term with another vote |
| Crashes.StandingIsUnsaved | consensus/raft.go:1031-1033 | a node that has just stood for election can vote for another after a crash |
| Crashes.CleanForgetsVotes | types/consensus.go:117-125 | a node that executes a CLEAN and crashes grants a second vote in one term |
| Crashes.StaleReplyKeepsVote | consensus/raft.go:1196-1204 | a stale reply leaves the vote alone if and only if it names no later term than the append's or a later one than the node's |
| Durability.ActionsSave | consensus/raft.go:677-684 | over any sequence of steps and crashes, CLEAN included, the log, the snapshot with its index and term, and the store are on disk |
| Durability.CrashKeepsLog | consensus/raft.go:43-96 | at any point of such a sequence a crash loses no entry and no snapshot, and leaves the last index and term by which candidates are judged |
| Durability.AcceptedSurvivesCrash | consensus/raft.go:671-684 | the whole log that an accepted append leaves, with the shipped entries at its end, is there after a crash |
| Durability.RunSaves | consensus/raft.go:677-684 | in every state of every run, with crashes or without, every node has its log, snapshot and store on disk |
| Durability.DurableExactly | consensus/raft.go:545-700 | what was all on disk is so after a step if and only if the step is none of five that do not save: standing, either stale reply, a snapshot of a later term that is not newer, and applying a CLEAN |
| Durability.SavesEverything | consensus/raft.go:549-602 | whatever was unsaved before, a granted vote, new entries, a proposal and a new snapshot leave everything on disk |
| Recovery.RecoveryConverges | consensus/raft.go:1251-1271 | replaying from the snapshot index, after any number of replays cut short, gives the store of applying every entry once, CLEAN included |
| Recovery.RestartReplays | consensus/raft.go:56-96 | a node that recovers from its disk, hears of a commit index and applies everything has the store of applying every entry once if and only if it meets no CLEAN, which empties its log, or nothing would be left anyway |
| Recovery.TakenSnapshot | consensus/raft.go:333-381 | a snapshot is the store at the applied index under the commit index and its term, so it stands for the entries it replaces if and only if the two stores are equal |
| Recovery.SurvivorsKeepIndex | consensus/raft.go:429-437 | exactly the entries behind an installed snapshot survive, each at its global index |
| Recovery.CatchUpBySurvivors | consensus/raft.go:400-474 | installing the leader's snapshot and applying what survived is replaying from index 1, under exactly the same condition |
| Recovery.CatchUpByAppend | consensus/raft.go:1140-1190 | so is installing it and applying what the leader ships next |
| Recovery.SkippingIsSeen | consensus/raft.go:439-468 | going on behind entries that a snapshot has undone makes no difference if and only if all that they had done to keys is redone |
| Recovery.AppliedBehindSnapshot | consensus/raft.go:439-468 | what a node comes to that installs a snapshot behind which it had applied entries, and exactly when that is the store of a replay |
| Recovery.LaggingSnapshotLoses | consensus/raft.go:333-360 | a snapshot taken before a committed SET of a new key is applied lacks it |
| HandlerLaws.SnapshotIsNoted | consensus/raft.go:1140-1165 | after a snapshot was sent and answered, the leader counts on the follower for the snapshot's entries, which that has, and no more, and goes on right behind them |
| HandlerLaws.CatchUpByExchanges | consensus/raft.go:1140-1190 | snapshot, answer and next append between a leader and a follower behind it give the follower the leader's log and, applied, the replayed store |
| HandlerLaws.SnapshotFailsExactly | consensus/raft.go:333-346 | taking a snapshot fails exactly when committed entries are missing, and changes nothing exactly then or when nothing is new |
| HandlerLaws.InstallFollows | consensus/raft.go:400-427 | a snapshot is refused exactly when its term is stale, and one that is not newer changes neither log nor store nor disk |
| HandlerLaws.InstallGoesOnBehind | consensus/raft.go:439-468 | with a newer snapshot the node goes on at the first index neither applied nor covered |
| HandlerLaws.StartsBehindSnapshot | consensus/raft.go:67-96 | a node that starts up ships every peer what follows its snapshot, and counts on none |
| HandlerLaws.StartsWithStore | consensus/raft.go:86-89 | it has the saved store, unless nothing follows its snapshot, which it then restores |
| Membership.StartsWithConfig | consensus/raft.go:120-132 | a node starts in its own configuration, with no change pending |
| Membership.ChangesKeepConfig | consensus/raft.go:767-935 | over any changes, also while one is pending, the node is in both configurations and they differ by exactly one node |
| Membership.CanCommitIsAcceptance | consensus/raft.go:287-322 | counting accepts if and only if the counted replicas are a majority of every configuration in force |
| Membership.QuorumChain | consensus/raft.go:767-935 | at every point of every sequence of changes, replica sets accepted before and after a change share a node |
| Reconfiguration.CommittedIsAccepted | consensus/raft.go:720-765 | whatever a leader commits, in transition or not, is known to be held by a majority of every configuration in force |
| Reconfiguration.CommitsExactly | consensus/raft.go:720-765 | and it commits its majority index if and only if that lies ahead, in the log, and is so held |
| Reconfiguration.CommitChain | consensus/raft.go:756-763 | at every point of every sequence of changes, what is committed before a change and what is committed after it are held by a common node |
| Reconfiguration.RequestIsPending | consensus/raft.go:767-899 | a request makes the members with the server added, or taken out, the pending configuration, exactly when it is taken up |
| Reconfiguration.AddedIsUncounted | consensus/raft.go:820-826 | a server just added counts for no entry, and is shipped what follows the request |
| Reconfiguration.RemovedIsUncounted | consensus/raft.go:889-894 | a server to be removed counts for no entry from then on, and stays a peer |
| Reconfiguration.FinaliseAdopts | consensus/raft.go:901-935 | the pending configuration is the one that stays, and the final entry follows the log |
| Reconfiguration.FinalisedIsAsked | consensus/raft.go:767-935 | over any sequence of changes, a request finalised before the next one is taken up leaves exactly the members that it asked for |
| Reconfiguration.MembersStay | consensus/raft.go:767-935 | until a change is finalised, the members do not change |
| Reconfiguration.AppliedChangeIsFinalised | consensus/raft.go:944-954 | a leader that applies the entry of a pending change finalises it, and anyone else leaves the configuration alone |
| Reconfiguration.RetrackKeepsKnown | consensus/raft.go:956-983 | a finalised change is followed by tracking exactly the members, with what was known of them |
| Membership.MedianMeetsCounting | consensus/raft.go:733-763 | outside a transition an index may be committed if and only if it is at most the sorted median |
| Membership.AdvanceIsGreatest | consensus/raft.go:720-765 | a leader that advances reaches the greatest index that may be committed |
| Membership.RetrackTracksItself | consensus/raft.go:956-983 | applying a finalised change makes a node track itself, from zero |
| Membership.MedianOfSelfTracking | consensus/raft.go:733-763 | what the median of such a leader then counts |
| Membership.SelfTrackingAgrees | consensus/raft.go:733-763 | for such a leader median and counting agree on an index if and only if the given relation of holders to nodes, by parity, does not occur |
| Membership.SelfTrackingHidesMajority | consensus/raft.go:956-983 | with an odd number of nodes and a bare majority of holders it does not commit what counting would |
| AppendLaws.AcceptedAppendAligns | consensus/raft.go:650-684 | an accepted append makes a follower that agrees up to the preceding entry agree through the last shipped one, and hold nothing behind it |
| AppendLaws.RepeatedAppend | consensus/raft.go:671-697 | delivering an accepted append again changes nothing if and only if it is empty or its preceding entry lies in the local log |
| AppendLaws.LateAppend | consensus/raft.go:676-681 | an append overtaken by a longer one truncates exactly what came behind it |
| AppendLaws.AppendFromStart | consensus/raft.go:656-681 | a window from index zero is always accepted, and aligns the follower if and only if its log was empty |
| HandlerLaws.AppendFollows | consensus/raft.go:619-669 | a sender that is not stale is followed in its term, also when its entries are refused; a stale one changes nothing |
| HandlerLaws.AnswersDepose | consensus/raft.go:1147-1159 | an answer takes the lead from a node if and only if it names a later term, which the node then follows |
| HandlerLaws.RefusalsLeadBack | consensus/raft.go:1221-1228 | refusals, were they to arrive, would lead a next index back one by one, and no further than to the snapshot |
| HandlerLaws.ProposalIsLast | consensus/raft.go:490-523 | a proposal is taken up exactly by a leader, and the index returned is where the log then has its entry |
| HandlerLaws.LeadsFromEnd | consensus/raft.go:1085-1092 | no peer counts for any entry with a new leader, and each is shipped what follows its log |
| StateMachine.FoldsAgree | consensus/raft.go:1313-1352 | one log takes two stores to the same if and only if they differ only for keys that it settles |
| StateMachine.FoldHolds | consensus/raft.go:1313-1352 | a log leads to a value for a key if and only if the last entry that settles the key is a SET of that value, with no DELETE of it and no CLEAN behind |
| StateMachine.ReplayConverges | consensus/raft.go:1313-1352 | executing a log again from its start, on the store it led to part of the way, makes no difference |
| CommitIndex.MajorityBounds | consensus/raft.go:746-754 | an index within the log is reached by a majority of the members if and only if it is at most the majority index |
| CommitIndex.SortDescending | consensus/raft.go:747-753 | the bubble sort leaves the array descending and a permutation of what it was |
| CommitIndex.MedianOfDescending | consensus/raft.go:754 | the middle element of a descending list is its greatest value that more than half of the elements reach |
| CommitIndex.MajorityOf | consensus/raft.go:733-754 | collecting, sorting and taking the middle gives the majority index |
| Commands.SplitNJoins | consensus/raft.go:502 | joining the parts of a split command gives the command back |
| Commands.PartsAreWhole | consensus/raft.go:502 | no part contains a separator, but for the last when the limit was reached |
| Commands.SetRoundTrip | handlers/handlers.go:16 | a printed SET splits into exactly its key and value if and only if the key has no colon, whatever the value |
| Commands.DeleteRoundTrip | handlers/handlers.go:30 | likewise for DELETE |
| Commands.CleanRoundTrip | handlers/handlers.go:44 | a CLEAN becomes the entry without key and value |
| Commands.KindsStayApart | consensus/raft.go:502-506 | whatever its key, a SET becomes a SET entry and a DELETE a DELETE entry |
| Commands.RequestsStayApart | consensus/raft.go:502-513 | different requests with colon-free keys never become the same entry |
| Commands.AlikeRequests | handlers/handlers.go:16 | two SET requests print alike if and only if their keys and values joined by a colon do |
| Commands.AlikeIsSame | handlers/handlers.go:16 | two SET requests that print alike are the same if and only if their keys are equally long |
| Consensus.RaftConsensus.constructor | consensus/raft.go:43-135 | the new object's state is the recovery of what was saved |
| Consensus.RaftConsensus.RequestVote | consensus/raft.go:545-602 | state and answer are those of the node function, saves included |
| Consensus.RaftConsensus.ElectionTimeout | consensus/raft.go:1030-1115 | a whole election, given the votes that arrive in time |
| Consensus.RaftConsensus.CollectVotes | consensus/raft.go:1056-1084 | counting that stops early decides as counting all votes does |
| Consensus.RaftConsensus.Propose | consensus/raft.go:490-523 | the new state, and the global index of the new entry |
| Consensus.RaftConsensus.AppendEntries | consensus/raft.go:619-700 | state and answer are those of the node function, in every case |
| Consensus.RaftConsensus.Heartbeat | consensus/raft.go:1132-1187 | the message that the node function ships |
| Consensus.RaftConsensus.OnAppendReply | consensus/raft.go:1192-1228 | the leader's new state, for every outcome |
| Consensus.RaftConsensus.OnInstallReply | consensus/raft.go:1147-1165 | the leader's new state after a snapshot was sent |
| Consensus.RaftConsensus.CanCommit | consensus/raft.go:287-322 | the counting loops decide as the set of holders does |
| Consensus.RaftConsensus.CalculateCommitIndex | consensus/raft.go:720-765 | the commit index becomes the majority index exactly when that may be committed |
| Consensus.RaftConsensus.FetchNext | consensus/raft.go:1241-1271 | the next committed entry, unless it has been compacted away |
| Consensus.RaftConsensus.Consume | consensus/raft.go:1313-1352 | the effect of each command on store, log and disk |
| Consensus.RaftConsensus.TakeSnapshot | consensus/raft.go:329-393 | the compacted log, the snapshot and what is saved, or the error |
| Consensus.RaftConsensus.InstallSnapshot | consensus/raft.go:400-474 | the whole new state, or the error, and the early return that does not save |
| Consensus.RaftConsensus.RequestAddServer | consensus/raft.go:767-831 | the pending configuration, the entry and the tracking, or the error |
| Consensus.RaftConsensus.RequestRemoveServer | consensus/raft.go:833-899 | the pending configuration, the entry and the tracking, or the error |
| Consensus.RaftConsensus.FinaliseConfigChange | consensus/raft.go:901-935 | the pending configuration becomes the only one, or the error |
| Consensus.RaftConsensus.HandleConfigChange | consensus/raft.go:937-989 | what applying a configuration entry does |
| Storage.Store.Get | storage/store.go:54-59 | the value of a key, if there is one |
| Storage.Store.Set | storage/store.go:61-65 | one key is set and the rest is unchanged |
| Storage.Store.Delete | storage/store.go:67-71 | one key is removed and the rest is unchanged |
| Storage.Store.ClearAll | storage/store.go:84-88 | the store holds nothing, in a new table |
| Storage.Store.CreateSnapshot | storage/store.go:142-150 | a fresh table with the store's contents |
| Storage.Store.RestoreSnapshot | storage/store.go:153-160 | the contents of a snapshot, in a fresh table |
| Storage.SnapshotsAreIsolated | storage/store.go:141-160 | writes to the store that a snapshot was taken of, or restored to, leave the snapshot alone |
| Persistence.JSONPersister.SaveState | types/consensus.go:75-95 | the saved term, vote and log are replaced as a whole |
| Persistence.JSONPersister.LoadState | types/consensus.go:97-115 | what was saved last, or the defaults |
| Persistence.JSONPersister.ClearState | types/consensus.go:117-125 | nothing is saved, but the snapshot stays |
| Rpc.RefusalIsError | rpc/client.go:81-88 | a caller sees an accepted append as success and a refused one as an error |
| Server.RaftServer.RequestVote | rpc/server.go:45-52 | the reply carries the node's decision and its term |
| Server.RaftServer.AppendEntries | rpc/server.go:54-65 | reply and returned error both follow the handler's decision |
| Server.RaftServer.InstallSnapshot | rpc/server.go:74-79 | the reply carries the node's term, and the handler's error is returned |
| Server.SendAppendEntries | rpc/client.go:52-92 | the caller's view of an append: nothing delivered, an error, or the reply |
| Server.HeartbeatExchange | consensus/raft.go:1125-1228 | a whole exchange between two node objects is the cluster's exchange step |
| Server.SetHandler | handlers/handlers.go:9-21 | at a leader the log grows by exactly the requested entry when the key has no colon |
| Server.DeleteHandler | handlers/handlers.go:23-35 | likewise for DELETE |
| Server.CleanHandler | handlers/handlers.go:37-49 | at a leader the log grows by exactly the CLEAN entry, and anyone else refuses |

## Left out

- Liveness: a follower whose log does not match is never backed up to, so there is no claim of progress.
- Sockets, timers, goroutines and locks, and with them the interleavings inside one handler or one heartbeat exchange.
- Failing or torn disk writes, JSON and SQLite encodings; saving always succeeds, and a handler's saves and its effects
  are one step.
- The term in the reply to a vote request: the candidate ignores it (`consensus/raft.go:1048`).
- Addresses, the log buffer, status printing, getters and `Ping`.
- The informational `Index` field of entries; positions in the log are used throughout. The finalising entry's field is
  one too low (`consensus/raft.go:910`, `consensus/raft.go:922`).
- The snapshot trigger after 1000 applied entries: snapshots may be taken at any point instead.
- The channel between fetching and consuming an entry: both are one step, `ApplyNext`.
- The HTTP interfaces, the command lines and the cluster manager.
- Membership change in the runs: followers never update their configuration, and elections count peers instead of it
  (`consensus/raft.go:1056-1057`). Removing a server leaves it a peer (`consensus/raft.go:889-894`), as modelled.
- Compaction, snapshot installation and CLEAN in the runs; they are covered node by node.
- Theorems.LeaderCompleteness: for runs from a non-empty first log, as the other theorems of `Theorems`; from an empty
  one state machine safety fails (`Limits.SafeExactly`), since an append behind index zero is neither checked nor
  truncated, and `FreshClusters` has what holds of the runs in which that does not happen.
- Recovery.RecoveryConverges: on folds; a node that meets a CLEAN among the entries it consumes empties its log, and
  `Recovery.RestartReplays` says exactly when it still ends right.
- Compaction.CompactionIsInvisible: its sequences contain no snapshot installation, no refusal reported as a reply, and
  no append that `Compaction.AppendShowsCompaction` shows to differ.
- Map iteration order: loops over maps take their keys in any order, as Go does.
