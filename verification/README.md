# dbfailsim: verified models of its election, live-fault and bookkeeping logic

dbfailsim injects faults between a client and a database cluster. This project models its hardest
logic in Dafny and proves, for every input and every run, what the code keeps:

- **Leader election** (`Raft*.dfy`). `RaftNode` is one node: the pure transition functions `TickNode`
  and `StepNode`, and a class `Node` whose methods change its fields in place and are proved equal to
  them; `RaftResponse` says field by field what a message or a tick must change and which answers are
  owed. `RaftProtocol` puts any number of nodes on a network that may drop, duplicate, reorder and
  delay (section 5.2 of the Raft paper, Ongaro and Ousterhout 2014) and proves safety over whole runs
  from an invariant over all votes and wins ever seen. `RaftCluster` is the simulator as a value;
  every one of its ticks is a sequence of protocol actions, so the protocol's theorems hold of it.
  `RaftSimulator` is the simulator in place, proved equal to that value. `RaftAccounting`,
  `RaftStability`, `RaftConvergence`, `RaftStepDown`, `RaftMinority` and `RaftTraffic` prove counting,
  stability, how a reign comes about and how an old one ends, isolation and load.
- **Live faults of the proxy.** `ProxySever` is the track / re-check / sever protocol in every
  interleaving. `FaultChain` builds and runs the wrapper chains, `FaultEffects` says
  what they do in terms of the faults' parameters, `FaultRegistry` holds the faults,
  and `LiveConn` is the cache of chains under concurrent registry changes, and what a connection
  delivers across them. `Throttle` is the token
  bucket over real-valued time.
- **Bookkeeping.** `NodeFaults` is the engine's list of injected node faults under timers, heals and
  removals; `ConsistencyChecker` compares the incremental checker with the whole history; `StaleRead`
  is the stale-read cache and the buffer that feeds it; `ShellQuoting` is the command line sent to ssh.

Random draws are arbitrary values in their range, clocks are arbitrary monotone numbers, locked
sections are single steps of a state machine, and raw connections are append-only logs of chunks.

Where the code and its comments differ, the model follows the code:

- The read_your_writes check speaks of "this client's" writes but never looks at who wrote
  (`WritersAreIgnored`, `StrangersAreFlagged`); `OwnWritesSuffice` says exactly when its verdicts are
  those of the client's own writes.
- Node faults are reverted by node, not by fault: `RemovalLaw` and `TimerLaw` say exactly when the
  other faults of the node survive, `RemovalTakesOthers` and `StaleTimerTakesAnother` show runs where
  they do not. No heal cancels a timer (`CallsAreCounted`, `TimerStaysDue`).
- A heal between an injection and its record misses the fault (`HealMissesArrival`);
  `HealLeavesNothing` says exactly when a heal leaves no fault behind.
- A `for_ms` timer unregisters by name: `ExpiryLaw` says exactly when it takes another instance than
  its own, `ExpiryEndsExtension` shows it ending an extended window.
- A rebuilt chain starts with an empty reorder buffer: `LostAtRebuilds` says exactly when that loses
  chunks, `SafeToReplace` which fault lists never do, `HeldChunkIsLost` loses one.
- A reset fault marks the raw connection for good: `ResetSticks` says exactly when a connection resets
  on close, `ResetOutlivesFault` shows one that does without the fault.
- A read key joins client and key with ':': `ReadKeysCollide` says exactly which clients can share one,
  `SharedKeyMisjudges` shows a verdict it spoils.
- The throttle's refill clock does not move past the wait: `NominalBoundExactly` says exactly when the
  nominal bound holds, `ThrottleBound` what holds always.
- An empty node name looks like "no vote": `OneVoteUnlessNameless` says exactly when that gives two
  votes in one term.

## Model

| member | source | states |
|---|---|---|
| RaftNode.Node.constructor | internal/raft/raft.go:134-154 | a node starts as a follower in term 0 without vote, leader or votes, its peers being the other members in ascending order, with a timeout in the configured range |
| RaftNode.Node.QuorumSize | internal/raft/raft.go:183 | the quorum is the least strict majority of the cluster |
| NameOrder.SortedLaws | internal/raft/raft.go:150 | sorting is an ascending rearrangement: the same names, each as often |
| NameOrder.SortedDistinct | internal/raft/sim.go:24-25 | sorting keeps distinct ids distinct |
| NameOrder.FirstDifference | internal/raft/raft.go:150 | names are ordered as strings: a prefix first, otherwise by the first difference |
| RaftNode.Node.ResetElectionTimer | internal/raft/raft.go:185-189 | the timer restarts with any timeout of the configured range and nothing else changes |
| RaftNode.Node.Announce | internal/raft/raft.go:248-254 | one message of the current term to each peer, in order |
| RaftNode.Node.Tick | internal/raft/raft.go:194-208 | refines TickNode: new state and messages for every role, for the timeout drawn |
| RaftNode.Node.Campaign | internal/raft/raft.go:214-226 | refines StartElection, including the immediate win of a single-node cluster |
| RaftNode.Node.Lead | internal/raft/raft.go:228-234 | refines BecomeLeader: leads, counts the win, announces itself |
| RaftNode.Node.Follow | internal/raft/raft.go:237-246 | refines BecomeFollower: the vote is dropped only when the term grows |
| RaftNode.Node.Step | internal/raft/raft.go:257-318 | refines StepNode for every message, misaddressed, stale, current or of a higher term |
| RaftNode.TickKeepsSane | internal/raft/raft.go:194-234 | timers stay below their limits, candidates and leaders voted for themselves, a candidate is below the quorum |
| RaftNode.StepKeepsSane | internal/raft/raft.go:257-318 | every message keeps the same invariant |
| RaftNode.OneVoteUnlessNameless | internal/raft/raft.go:282-291 | after granting one candidate, another candidate of the same term is granted if and only if the first one's name is empty |
| RaftNode.TermCredit | internal/raft/raft.go:185-226 | between elections of a node that hears nothing lie at least the minimal and at most the maximal timeout, counted exactly |
| RaftNode.TermInflation | internal/raft/raft.go:185-226 | a non-leader with a peer that hears nothing for n ticks never leads, and gains between n / max and (n + elapsed) / min terms |
| RaftResponse.StepByField | internal/raft/raft.go:257-312 | what every message does to term, vote, role, believed leader, counted votes and counters: a newer term is adopted, a free vote given, a grant counted once, a majority wins, a heartbeat is bowed to |
| RaftResponse.StepTimer | internal/raft/raft.go:185-312 | the election timer restarts exactly for a newer term, a granted vote and a heartbeat the node bows to |
| RaftResponse.StepAnswers | internal/raft/raft.go:257-317 | every plea and every heartbeat, stale ones too, gets one answer of the later of the two terms; a winning vote is followed by heartbeats to all peers; nothing else is answered |
| RaftResponse.StepForOthers | internal/raft/raft.go:258-260 | a message to somebody else changes nothing and is not answered |
| RaftResponse.TickByField | internal/raft/raft.go:194-234 | what a tick does to every field: it counts on, restarts the count with heartbeats, or campaigns for the next term |
| RaftResponse.TickSends | internal/raft/raft.go:194-254 | a heartbeat or a plea to every peer in order, or nothing |
| RaftResponse.StaleSenderStepsDown | internal/raft/raft.go:269-279 | a heartbeat or plea that meets a node of a later term: the one answer, delivered, makes the sender a follower of that term |
| RaftResponse.LaterHeartbeatWins | internal/raft/raft.go:261-312 | a heartbeat of a later term makes any node follow its sender, and the answer says so |
| RaftResponse.GrantsElect | internal/raft/raft.go:293-300 | whatever grants arrive and how often, a candidate leads if and only if the different voters are a strict majority, and counts one win |
| RaftProtocol.StepVotes | internal/raft/raft.go:257-300 | how one message may change term and vote: the term never falls, within one term a vote once given stays, and every vote a candidate counts is its own, was counted before or came with this message |
| RaftProtocol.StepSends | internal/raft/raft.go:257-318 | what a step sends: a granted vote names the candidate the node has just recorded, in its current term, and a heartbeat comes only from a leader |
| RaftProtocol.ApplyKeepsInv | internal/raft/raft.go:194-318 | every tick and every delivery keeps the invariant: votes are recorded, wins have a majority of recorded ballots, heartbeats come from winners |
| RaftProtocol.RunInv | internal/raft/raft.go:194-318 | the invariant holds after every run over a network that drops, duplicates, reorders and delays |
| RaftProtocol.OneWinnerPerTerm | internal/raft/raft.go:183-300 | two majorities of one term share a voter, so two recorded wins of one term have one winner |
| RaftProtocol.ElectionSafety | internal/raft/raft.go:214-300 | nodes that lead the same term at any two moments of any run are the same node |
| RaftProtocol.OneGrantPerTerm | internal/raft/raft.go:282-291 | all grants a voter ever sent in one term name one candidate |
| RaftProtocol.OneVotePerTerm | internal/raft/raft.go:214-291 | the votes a node holds in one term at any two moments are for one candidate |
| RaftProtocol.BeliefsAreTrue | internal/raft/raft.go:228-312 | a non-empty leader field names a node that led the holder's current term at some moment of the run |
| RaftProtocol.BelieversAgree | internal/raft/raft.go:228-312 | nodes of one term that know a leader know the same one |
| RaftProtocol.NoRivalHeartbeat | internal/raft/raft.go:302-312 | the case called impossible is unreachable: no message ever sent is a heartbeat of a leader's own term addressed to that leader |
| RaftAccounting.MaxTermIsLeast | internal/raft/sim.go:122-130 | the highest term is the least upper bound of the nodes' terms |
| RaftAccounting.ElectionAccounting | internal/raft/raft.go:214-246 | after every run over any network: total elections won <= highest term <= total elections begun |
| RaftCluster.TickRefines | internal/raft/sim.go:61-79 | one tick of the simulator is a sequence of protocol actions with the same nodes and messages |
| RaftCluster.RunRefines | internal/raft/sim.go:61-86 | every run of the simulator, under any schedule of cut links, is a run of the protocol |
| RaftCluster.RunsJoin | internal/raft/sim.go:82-86 | a run and a run that goes on from its end are one run, so Run, a change of links and Run again is a run in the sense of the theorems |
| RaftCluster.ClusterElectionSafety | internal/raft/sim.go:61-79 | for every cluster of distinct non-empty ids, every partition schedule and every timeout, leaders of one term after any two ticks are one node |
| RaftCluster.ClusterAccounting | internal/raft/sim.go:61-130 | after every tick: elections won <= MaxTerm <= elections begun, summed over all nodes |
| RaftCluster.ClusterBelieversAgree | internal/raft/sim.go:61-79 | same-term believers agree after every tick |
| RaftSimulator.Cluster.Build | internal/raft/sim.go:26-28 | one fresh node per id, with the other ids as peers |
| RaftSimulator.Cluster.constructor | internal/raft/sim.go:22-30 | members in ascending order, an empty inbox, no cut link, and a started cluster when the ids are distinct and non-empty |
| RaftSimulator.Cluster.Send | internal/raft/sim.go:88 | messages queue at the end of the inbox |
| RaftSimulator.Cluster.Pass | internal/raft/sim.go:69-73 | one message that gets through: traced when recording, stepped, its answers queued |
| RaftSimulator.Cluster.DeliverPending | internal/raft/sim.go:62-74 | all pending messages whose link is not cut are delivered in order, counted and traced |
| RaftSimulator.PassingIsReceived | internal/raft/sim.go:65-74 | the messages counted and traced are, in order, those the protocol receives |
| RaftSimulator.PassingMembers | internal/raft/sim.go:66-68 | a message gets through if and only if its link is not cut |
| RaftSimulator.Cluster.TickMembers | internal/raft/sim.go:75-77 | every member ticks once, in order |
| RaftSimulator.Cluster.Tick | internal/raft/sim.go:61-79 | the cluster after a tick is ClusterTick of the cluster before, and the result counts the messages that got through |
| RaftSimulator.Cluster.Run | internal/raft/sim.go:82-86 | n ticks are a run in the sense of the theorems, from the old state to the new, under the links cut now |
| RaftSimulator.Cluster.Partition | internal/raft/sim.go:33-40 | exactly the links between the groups, both ways, are cut in addition |
| RaftSimulator.PartitionSeparates | internal/raft/sim.go:33-40 | after a cut between two groups nothing passes between them in either direction, and everything else that passed still does |
| RaftSimulator.Cluster.Isolate | internal/raft/sim.go:43-50 | exactly the links between the node and every other are cut in addition |
| RaftSimulator.Cluster.BlockOneWay | internal/raft/sim.go:54 | exactly one directed link is cut in addition |
| RaftSimulator.Cluster.Heal | internal/raft/sim.go:57 | no link is cut |
| RaftSimulator.Cluster.Leaders | internal/raft/sim.go:91-99 | exactly the members that lead, in ascending order |
| RaftSimulator.Cluster.HighestTerm | internal/raft/sim.go:122-130 | the maximum over all nodes, found in any order of the map |
| RaftSimulator.FreshCluster | internal/raft/sim.go:22-30 | fresh nodes that know each other form a closed cluster, and a started one when ids are distinct and non-empty |
| RaftStability.FollowerStays | internal/raft/raft.go:257-318 | a message of the reigning term leaves a follower a follower of that term |
| RaftStability.TickKeepsReign | internal/raft/sim.go:61-79 | one tick with the leader's outgoing links open keeps the reign, the bound on message terms and the feeding of every follower |
| RaftStability.StableLeadership | internal/raft/raft.go:185-208 | a leader of the highest term whose links to its followers stay open stays the only leader and no term grows, for any number of ticks, reverse links arbitrary, if heartbeats are faster than the shortest timeout |
| RaftConvergence.TickKeepsAhead | internal/raft/raft.go:185-208 | while the leader of the highest term counts to its next heartbeats nobody campaigns and no term grows, whatever the links do; when it sends, everybody is still waiting |
| RaftConvergence.HeartbeatsArrive | internal/raft/raft.go:257-312 | one tick with the leader's heartbeats in flight and its links open brings every other node into its term, as a follower unless it leads that term too |
| RaftConvergence.Convergence | internal/raft/raft.go:185-312 | from any reachable state, a leader of the highest term with nobody's election timer ahead of its own is followed by everybody from one tick after its next heartbeats on, within a heartbeat interval and a tick, if its links are open then and heartbeats are faster than the shortest timeout; candidates and leaders of older terms give in |
| RaftStepDown.DeliverAnswers | internal/raft/raft.go:271-279 | a heartbeat that gets through to a node of a later term is answered with a later term |
| RaftStepDown.OldLeaderStepsDown | internal/raft/raft.go:194-279 | from any reachable state, a leader with a node of a later term about has left its term two ticks after its next heartbeats, at most a heartbeat interval and two ticks on, if its link to that node is open for the heartbeat and the link back for the answer, whatever other links do |
| RaftMinority.RunIsSynced | internal/raft/sim.go:61-79 | in the simulator all votes of a candidacy arrive in one tick: while a plea or a grant of its candidacy is in flight, a candidate has counted only its own vote |
| RaftMinority.MinorityCannotElect | internal/raft/sim.go:33-73 | from any reachable state, while every link into a group below the quorum is cut, no member wins an election, not even one begun before the cut |
| RaftMinority.IsolatedMinority | internal/raft/raft.go:183-300 | over any network, once a group below the quorum hears only itself, no member leads a term above the one it had then |
| RaftMinority.OlderCandidacyNeeds | internal/raft/raft.go:293-300 | over any network, once a group hears only itself, a member that did not lead then leads its term of that moment only if it was a candidate then and its votes of that moment together with the group are a quorum |
| RaftMinority.OlderCandidacyCanFinish | internal/raft/raft.go:293-300 | over any network the restriction to later candidacies is needed: a concrete run of five nodes where an older candidacy wins after the cut |
| RaftTraffic.StepSendsLittle | internal/raft/raft.go:257-317 | a step answers a request with at most one reply, sends requests only by turning a candidate into a leader, and makes no candidate |
| RaftTraffic.BoundedInbox | internal/raft/sim.go:61-79 | in every run of n nodes the inbox never exceeds 4 n (n - 1) messages |
| RaftTraffic.IsolatedIsDeaf | internal/raft/sim.go:43-50 | a node cut off by Isolate hears nobody in the sense of the envelope |
| RaftTraffic.ClusterTermInflation | internal/raft/raft.go:185-226 | in the simulator, from any reachable state, a non-leader whose links from every other node stay cut wins nothing and its term grows within the envelope of the timeouts |
| ProxySever.RunIsConsistent | internal/proxy/proxy.go:205-372 | in every interleaving a session at each point of its handler has exactly the tracked and open connections that point allows; flags, topology and counter are read and changed in separate steps |
| ProxySever.CallTearsDown | internal/proxy/proxy.go:76-98 | once a call that set a flag has returned and the flag has stayed set, no session past the re-check has an open tracked connection |
| ProxySever.SeverIsComplete | internal/proxy/proxy.go:278-343 | the same per session; a session about to pump, pumping or just done has lost both connections |
| ProxySever.NothingLeaks | internal/proxy/proxy.go:311-354 | a finished session leaves no tracked or open connection, and the active counter is the number of sessions between their two visits to it, all past the re-check |
| ProxySever.TopologyRefuses | internal/proxy/proxy.go:205-213 | while the cluster view cuts the link, the accept loop lets nobody in and nobody passes the re-check |
| ProxySever.FlagRefuses | internal/proxy/proxy.go:205-213 | while a flag is set, nobody gets past either check |
| ProxySever.RefusedNeverDials | internal/proxy/proxy.go:216-234 | a session that arrives while the topology stays cut, or while some flag stays set, never has its upstream connection open, never passes and is never counted |
| ProxySever.AllowedSessionRuns | internal/proxy/proxy.go:216-372 | with the flags clear and the link there a new session ends up pumping, counted, with both connections open and tracked |
| ProxySever.SessionsEnd | internal/proxy/proxy.go:311-372 | a session that is not done can always go on, each own step brings it further, and no other step moves it |
| ProxySever.SeverClosesTracked | internal/proxy/proxy.go:278-285 | a sever closes what is tracked and nothing else |
| ProxySever.StepsOnTable | internal/proxy/proxy.go:76-98 | the protocol steps change the flags and the table exactly as the methods of ConnTable do; setting a flag and severing together are ChangeFlag |
| ProxySever.ConnTable.ChangeFlag | internal/proxy/proxy.go:76-98 | setting a flag closes every tracked connection, clearing it closes none |
| ProxySever.ConnTable.TrackConn | internal/proxy/proxy.go:287-291 | the connection joins the table |
| ProxySever.ConnTable.UntrackConn | internal/proxy/proxy.go:293-297 | the connection leaves the table |
| ProxySever.ConnTable.SeverConns | internal/proxy/proxy.go:278-285 | exactly the tracked connections are closed, all others stay open, and the table stays as it is |
| FaultChain.FoldShape | internal/proxy/registry.go:164-179 | the built chain has the wrappers in list order, and the connection resets on close if and only if it was told so before or a reset is anywhere in the list |
| FaultChain.OnePassLosesReset | internal/proxy/registry.go:161-179 | a single pass would lose a reset behind a wrapper |
| FaultChain.WrappedConn.constructor | internal/proxy/registry.go:164-179 | a new connection around a chain has delivered nothing, and its start is that chain |
| FaultChain.WrappedConn.Write | internal/faults/network.go:164-256 | every write is a step of the relation Writes, which lists exactly what the draws allow, and reports the full length; a write panics only if a duplication that can fire has no copies to draw from; a shuffle on top that must hold the chunk does |
| FaultChain.WrappedConn.WriteAt | internal/faults/network.go:68-256 | a write entering at any depth of the chain is such a step of the wrappers below |
| FaultChain.WrappedConn.WriteLossy | internal/faults/network.go:399-403 | a lossy wrapper hands the chunk down or drops it, the latter only at a positive rate |
| FaultChain.WrappedConn.WriteRepeated | internal/faults/network.go:215-227 | the chunk is handed down once and, only at a positive probability, up to MaxExtraCopies times more |
| FaultChain.WrappedConn.WriteShuffled | internal/faults/network.go:164-190 | exactly when a chunk is handed down, held back or flushed with the full buffer in some order, and what the buffer is then; the buffer never stays full |
| FaultChain.WrappedConn.FlushAll | internal/faults/network.go:174-188 | the loop hands down a rearrangement of the buffer and the chunk and empties the buffer |
| FaultChain.WritesAllObey | internal/faults/network.go:164-256 | whatever the draws, a sequence of writes obeys the laws of origin, blocking, conservation and order gathered in Effect |
| FaultChain.EffectCompose | internal/faults/network.go:164-256 | effects of successive writes compose |
| FaultChain.ClassOfFaults | internal/faults/network.go:59-392 | whether a chain can lose, repeat, reorder or kills everything is read off the faults, both ways; a reordering fault of size one does not reorder |
| FaultChain.ChainLaws | internal/faults/network.go:148-256 | only written chunks arrive; none if some fault blocks the direction, wherever it sits; without loss and duplication delivered plus held equals written as multisets; without reordering too, delivered equals written |
| FaultChain.WrappedConn.DeliveryLaws | internal/faults/network.go:148-256 | the same of a live chain object after any sequence of writes into it |
| FaultChain.HoldsNothingExactly | internal/faults/network.go:148-190 | a chain that neither loses nor repeats never holds anything back, whatever is written and drawn, if and only if no fault reorders with a positive probability and size above one |
| FaultEffects.LoneFault | internal/faults/network.go:59-403 | in terms of the fault's parameters, exactly which numbers of copies of a chunk can arrive through a connection with this fault alone |
| FaultEffects.SureDuplication | internal/faults/network.go:205-227 | a duplication that always fires delivers at least two copies and at most one more than its extra copies |
| FaultEffects.CopyBound | internal/faults/network.go:205-227 | of any chain and any writes, delivered and held copies of a chunk are at most the written ones times the product of one plus the extra copies of its duplications |
| FaultEffects.ReorderHolds | internal/faults/network.go:148-190 | a reordering fault holds at most one chunk less than its size, and neither loses nor adds any |
| FaultEffects.SureReorder | internal/faults/network.go:164-190 | a reordering that always fires lets chunks out in full batches of its size, each in some order, and holds the rest |
| FaultEffects.ChainsStack | internal/proxy/registry.go:164-179 | the chain of a list is the chains of its parts, the first innermost |
| FaultRegistry.PutLaws | internal/proxy/registry.go:238-246 | installing keeps the order of names, appends a new one, changes only that name's entry and keeps names unique |
| FaultRegistry.WithoutLaws | internal/proxy/registry.go:248-258 | filtering removes exactly the entries of that name |
| FaultRegistry.WithoutInOrder | internal/proxy/registry.go:248-258 | what stays after filtering keeps its order |
| FaultRegistry.WithoutLookup | internal/proxy/registry.go:248-258 | after filtering, that name is gone and every other look-up is as before |
| FaultRegistry.PerformLaws | internal/proxy/registry.go:39-98 | no operation lowers the generation, and one that leaves it alone changes nothing at all |
| FaultRegistry.GenerationCounts | internal/proxy/registry.go:39-98 | the generation moves on by one with every registration and clearing, and with an unregistration that finds something |
| FaultRegistry.RegistryIsAMap | internal/proxy/registry.go:39-110 | after any operation sequence names are unique in all four lists and a look-up in any of them finds the last registration not undone since |
| FaultRegistry.TickingAfterPut | internal/proxy/registry.go:39-48 | how installing changes the set of names that need a ticker |
| FaultRegistry.ExpiryLaw | internal/scenario/scenario.go:371-375 | when an expiry timer fires, the name is gone from all four lists; it has taken another instance than its own if and only if a connection fault was registered under the name later, equal or not, and still stood, or a fault of another list stood under it |
| FaultRegistry.TimerFinds | internal/scenario/scenario.go:371-375 | the same for a timer armed in any of the lists: it finds an instance that is not its own if and only if one was registered later and still stands |
| FaultRegistry.ExpiryEndsExtension | internal/scenario/scenario.go:371-375 | the same latency injected twice: the timer of the first ends the second |
| FaultRegistry.Registry.constructor | internal/proxy/registry.go:33-35 | an empty registry of generation 0 |
| FaultRegistry.Registry.CloseChannel | internal/proxy/registry.go:229-234 | a stop channel is closed only when it is still open |
| FaultRegistry.Registry.StopTicker | internal/proxy/registry.go:229-234 | the ticker of that name and no other stops |
| FaultRegistry.Registry.StartTicker | internal/proxy/registry.go:211-227 | a ticker with a new stop channel runs under the name |
| FaultRegistry.Registry.ReplaceOrAppend | internal/proxy/registry.go:238-246 | the loop computes the ordered-map update |
| FaultRegistry.Registry.Filter | internal/proxy/registry.go:248-258 | the loop computes the ordered-map removal and reports whether the name occurred |
| FaultRegistry.Registry.RegisterConnFault | internal/proxy/registry.go:39-48 | performs the operation; a latency or loss fault gets a ticker with a new channel and no other fault does; the other tickers stay; live tickers are exactly the time-varying connection faults |
| FaultRegistry.Registry.RegisterPacketFault | internal/proxy/registry.go:50-55 | performs the operation and keeps the registry valid |
| FaultRegistry.Registry.RegisterDialFault | internal/proxy/registry.go:57-62 | performs the operation and keeps the registry valid |
| FaultRegistry.Registry.RegisterReadHook | internal/proxy/registry.go:64-69 | performs the operation and keeps the registry valid |
| FaultRegistry.Registry.UnregisterFault | internal/proxy/registry.go:74-87 | removes the name from all lists with its ticker; true if and only if it was in some list |
| FaultRegistry.Registry.ClearAll | internal/proxy/registry.go:90-98 | nothing is left and no ticker runs, each stopped once |
| FaultRegistry.Registry.Get | internal/proxy/registry.go:101-110 | the connection fault of that name, or none |
| FaultRegistry.Registry.Wrap | internal/proxy/registry.go:164-179 | the two loops build the fold of the current list over the raw connection, stamped with the generation |
| LiveConn.RunInv | internal/proxy/registry.go:196-207 | under any interleaving every cached chain is the fold of the list its generation stood for |
| LiveConn.WriteUsesFreshFold | internal/proxy/registry.go:164-207 | each write uses exactly the chain folded from the list and over the raw connection at its own generation check or rebuild, never a mix of two generations |
| LiveConn.ResetSticks | internal/faults/network.go:273-278 | under any interleaving a connection resets on close if and only if some chain of it was built while a reset was registered |
| LiveConn.RebuildsOnlyWhenChanged | internal/proxy/registry.go:197-203 | a chain is replaced only when there is none or the registry has changed since it was built |
| LiveConn.PickUpNeverFails | internal/proxy/registry.go:199-205 | a writer past the check can always rebuild or finds a chain |
| LiveConn.ChangeKeepsStamp | internal/proxy/registry.go:39-98 | no registry operation makes an outdated generation stamp look current |
| LiveConn.LiveConnection.constructor | internal/proxy/registry.go:157-159 | a live connection starts without a chain |
| LiveConn.LiveConnection.Rebuild | internal/proxy/registry.go:201-203 | a new empty chain of the current faults under the current generation, over the same raw connection, which a reset marks for good; the life of the old chain is closed as it stands |
| LiveConn.LiveConnection.Write | internal/proxy/registry.go:196-207 | every write goes through a chain of exactly the faults registered now, the cached one if and only if its generation is current; the connection resets on close if and only if a reset was in the list of some chain it ever had |
| LiveConn.LiveConnection.EpochsAreLawful | internal/proxy/registry.go:196-207 | every chain a live connection ever had obeyed the laws of its faults |
| LiveConn.EpochLaws | internal/proxy/registry.go:164-207 | over all registry changes: only written chunks arrive, a chain that blocks the direction delivers nothing, without loss and duplication written equals delivered plus held over all chains, and without reordering too everything arrives in order |
| LiveConn.LostAtRebuilds | internal/proxy/registry.go:201-203 | nothing is missing from what arrived and what the current chain holds if and only if no earlier chain held anything back when it was replaced |
| LiveConn.SafeToReplace | internal/proxy/registry.go:201-203 | a list that neither loses nor repeats can be replaced at any moment without losing a chunk if and only if it has no fault that reorders with a positive probability and size above one |
| LiveConn.HeldChunkIsLost | internal/proxy/registry.go:201-203 | a chunk held by a reordering fault that is then unregistered is never delivered |
| LiveConn.ResetOutlivesFault | internal/faults/network.go:273-278 | a reset that was registered, used and unregistered: the fault list is empty and the connection still resets on close |
| Throttle.BandwidthThrottle.constructor | internal/faults/network.go:88-93 | the bucket starts full |
| Throttle.BandwidthThrottle.TakeTokens | internal/faults/network.go:99-119 | the new bucket and the wait are Take of the old bucket; without a rate the bucket is not refilled and a deficit has no finite wait |
| Throttle.TakeLaws | internal/faults/network.go:99-119 | tokens stay in [0, burst]; the bytes equal tokens spent plus what flows during the wait; what is left and spent was there or was refilled |
| Throttle.TakeSplits | internal/faults/network.go:99-119 | two takes at one moment leave the bucket, and cost together the wait, of one take of both |
| Throttle.PauseRefills | internal/faults/network.go:99-119 | after a long enough pause the bucket is full: at most the burst goes out at once, the rest of it stays, and more waits for exactly the excess |
| Throttle.ReleasedIsPaid | internal/faults/network.go:130-135 | bytes released by any time equal tokens spent plus rate times the waits of all writers |
| Throttle.FrugalNeverWaits | internal/faults/network.go:99-135 | writers whose bytes are covered by what the bucket had and what has run in since, none running over, never wait, and the bucket holds exactly the difference |
| Throttle.ThrottleBound | internal/faults/network.go:88-135 | m sequential writers release at most burst + (m + 1) * rate * elapsed, and tokens stay in [0, burst] |
| Throttle.NominalBoundFails | internal/faults/network.go:103-118 | a concrete schedule of one writer that releases more than burst + rate * elapsed |
| Throttle.NominalBoundExactly | internal/faults/network.go:103-118 | the bound burst + rate * elapsed holds of all schedules of m writers if and only if m is 0, or m is 1 and the burst is 0 |
| NodeFaults.Partition | internal/scenario/scenario.go:431-439 | a revert parts the list by node and loses nothing |
| NodeFaults.PartitionInOrder | internal/scenario/scenario.go:431-439 | both sides of the list keep its order |
| NodeFaults.ScopeLaw | internal/scenario/scenario.go:299-310 | "*" covers every node, any other target just itself |
| NodeFaults.ExactlyOnce | internal/scenario/scenario.go:391-448 | in every interleaving recorded = outstanding + being reverted + reverted as multisets, each injection counted once, and none is reverted twice |
| NodeFaults.RevertIsComplete | internal/scenario/scenario.go:429-448 | whatever happens meanwhile, a revert that has finished has reverted everything that was outstanding in its scope when it began |
| NodeFaults.HealRevertsAll | internal/scenario/scenario.go:330-336 | after any run with no revert under way, a heal on its own reverts every injection ever recorded |
| NodeFaults.HealLeavesNothing | internal/scenario/scenario.go:330-336 | after any run with no revert under way, a heal on its own leaves no fault in any node if and only if no injection was waiting to be recorded |
| NodeFaults.HealMissesArrival | internal/scenario/scenario.go:410-415 | a run from the start in which a heal between an injection and its record leaves that fault in the node |
| NodeFaults.RemovalLaw | internal/scenario/scenario.go:299-312 | a removal of a name not there changes nothing; otherwise it clears its scope and touches nothing outside; it spares other faults if and only if it finds nothing or finds only that fault there |
| NodeFaults.RemovalTakesOthers | internal/scenario/scenario.go:308-310 | removing one of two faults of a node reverts both |
| NodeFaults.TimerLaw | internal/scenario/scenario.go:416-422 | when a timer fires, all injections but the one that armed it stay if and only if none of them is on the same node, whether or not its own is still there |
| NodeFaults.CallsAreCounted | internal/scenario/scenario.go:299-336 | in every run the reverts of a scope that are due plus those begun equal those due before plus those raised by heals, matching removals and timers: no call uses up another |
| NodeFaults.TimerStaysDue | internal/scenario/scenario.go:416-422 | no heal or removal cancels a timer, not even of its own node: as long as no more reverts of the node began than were raised since, it is still due, and when it fires it takes every injection on its node off the list |
| NodeFaults.StaleTimerTakesAnother | internal/scenario/scenario.go:416-422 | a run from the start in which the timer of a healed fault takes a later fault of the node |
| NodeFaults.Engine.constructor | internal/scenario/scenario.go:45-47 | an engine with nothing injected |
| NodeFaults.Engine.RunNodeFault | internal/scenario/scenario.go:391-409 | errors exactly without config or for an unknown node; otherwise exactly the nodes before the first failing injection are recorded |
| NodeFaults.Engine.InjectEach | internal/scenario/scenario.go:404-423 | the loop records the nodes reached, in order, and reports the first failure |
| NodeFaults.InjectAloneRuns | internal/scenario/scenario.go:404-423 | InjectEach on its own is an injection and its record for each node reached, with the same list and numbers |
| NodeFaults.Engine.RevertNodeFaults | internal/scenario/scenario.go:429-448 | the list keeps exactly the injections outside the scope, and the others are reverted once, in order |
| NodeFaults.RevertAloneRuns | internal/scenario/scenario.go:429-448 | RevertNodeFaults on its own is a revert that begins and works through its list, with the same list and reverted injections |
| NodeFaults.Engine.RemoveFault | internal/scenario/scenario.go:274-314 | error exactly for an unknown node; every target loses that flag or that fault and nothing else; true if and only if some target had it or a node fault matched; false means nothing changed |
| NodeFaults.RemovalByField | internal/scenario/scenario.go:281-297 | on the fields of a proxy: "partition" and "crash" clear their own flag, any other name that registry fault, and nothing else; found exactly when it was set |
| NodeFaults.RemoveAgain | internal/scenario/scenario.go:274-314 | what was removed is gone: removing it again finds nothing |
| NodeFaults.Engine.HealAll | internal/scenario/scenario.go:330-336 | every proxy has both flags clear and no fault, and every outstanding injection is reverted once, in order |
| NodeFaults.Engine.Outstanding | internal/scenario/scenario.go:318-326 | exactly the nodes with outstanding faults, each with its fault names oldest first |
| NodeFaults.NamesInOrder | internal/scenario/scenario.go:318-326 | one name per injection on the node, in the order of injection |
| ConsistencyChecker.ReadKeyInjective | internal/faults/consistency.go:69 | for client names without ':' a read key determines client and key |
| ConsistencyChecker.ReadKeysCollide | internal/faults/consistency.go:69 | two clients can share a read key if and only if one name is the other followed by ':' and anything, and then for every key of the longer one |
| ConsistencyChecker.KeysApartUnlessEntangled | internal/faults/consistency.go:69 | if no client of the history is such an extension of this one or the reverse, no read of another client or key is kept under its key |
| ConsistencyChecker.KeysApartWithoutColon | internal/faults/consistency.go:69 | in particular for client names without ':' |
| ConsistencyChecker.IndexOfBounds | internal/faults/consistency.go:98-105 | the index is that of the first write of the value, or -1 if there is none |
| ConsistencyChecker.LastBeforeLaws | internal/faults/consistency.go:85-96 | the write a read is held to is the newest not after it, the first of equally new ones, and missing only if all are later |
| ConsistencyChecker.FlagsAreDescents | internal/faults/consistency.go:67-83 | if no other client's reads share its key and reads return values already written, the monotonic_read flags of a client and key equal the descents of its reads as first-write indices, whatever is written later |
| ConsistencyChecker.SharedKeyMisjudges | internal/faults/consistency.go:67-83 | a history of two clients sharing a read key in which the only read of one is flagged as going backwards |
| ConsistencyChecker.CleanMeansMonotonic | internal/faults/consistency.go:45-105 | in strictly time-ordered histories with distinct values per key, no read_your_writes flag implies no flag at all |
| ConsistencyChecker.WritersAreIgnored | internal/faults/consistency.go:55-65 | histories that differ only in who wrote are judged alike |
| ConsistencyChecker.FlaggedWhenOutdated | internal/faults/consistency.go:55-65 | a read is flagged for read_your_writes if and only if it differs from the newest write of anybody not after it |
| ConsistencyChecker.FlagsSayWhy | internal/faults/consistency.go:55-81 | a flag names client, key and time of the read, and the time of the write it was held to or the two first-write indices, the later one first |
| ConsistencyChecker.OwnWritesSuffice | internal/faults/consistency.go:55-65 | for every value read, the flag equals the one for the client's own writes, if and only if there is no write to be held to or the newest own write has the value of the newest of all |
| ConsistencyChecker.StrangersAreFlagged | internal/faults/consistency.go:55-65 | a client that never wrote is flagged for read_your_writes |
| ConsistencyChecker.InMemoryChecker.constructor | internal/faults/consistency.go:38-43 | an empty checker |
| ConsistencyChecker.InMemoryChecker.RecordWrite | internal/faults/consistency.go:45-49 | the history grows by the write and nothing is flagged |
| ConsistencyChecker.InMemoryChecker.RecordRead | internal/faults/consistency.go:51-83 | the history grows by the read, with exactly the flags it earns |
| ConsistencyChecker.InMemoryChecker.LastWriteBefore | internal/faults/consistency.go:85-96 | the search loop finds that write |
| ConsistencyChecker.InMemoryChecker.WriteIndexOf | internal/faults/consistency.go:98-105 | the search loop finds the first index |
| StaleRead.CacheIsLatest | internal/faults/db.go:86-95 | for each key the cache holds the live reply and time of the latest call with that key |
| StaleRead.DepthOne | internal/faults/db.go:82-101 | each reply is this call's live reply or that of the immediately preceding call with the same key, the latter if and only if it is young enough and the draw says so |
| StaleRead.SentIsFresh | internal/proxy/proxy.go:400-423 | whatever the client gets is a non-empty live reply of this call or of the preceding one with its key |
| StaleRead.NothingWithheld | internal/proxy/proxy.go:418-423 | every reply that is not empty is sent, once and in order |
| StaleRead.StaleReadFault.constructor | internal/faults/db.go:64-70 | an empty cache after no calls |
| StaleRead.StaleReadFault.MaybeServeStale | internal/faults/db.go:82-101 | the reply is the one the run of calls determines, the cache stays what the calls left there, and it keeps the very buffer it was given |
| StaleRead.ReplyLeg.Read | internal/proxy/proxy.go:380-388 | reading overwrites the pump's buffer and leaves every cached reply as it was |
| StaleRead.ReplyLeg.Handle | internal/proxy/proxy.go:382-423 | one round of the pump is one call: its reply is sent unless empty, and the cache gains no buffer but a new one, so no session's pump buffer |
| StaleRead.ReplyLeg.Pump | internal/proxy/proxy.go:380-429 | over the whole loop the client gets exactly the non-empty replies of its calls, and the cache never points into a pump buffer |
| StaleRead.UncopiedReplyChanges | internal/proxy/proxy.go:411-413 | handing over the buffer itself would let the next read change the cached reply into one no call left there, for every buffer |
| ShellQuoting.QuotingRoundTrip | internal/faults/driver.go:95-116 | for every non-empty word list, splitting the joined quoted words by sections 2.2 and 2.3 of the POSIX.1-2017 Shell Command Language gives back the words, empty ones and quotes included |
| ShellQuoting.CommandLineIsInjective | internal/faults/driver.go:95-106 | different commands have different command lines |
| ShellQuoting.BareWordSurvives | internal/faults/driver.go:108-116 | a word can go unquoted if and only if it is not empty, holds none of the active characters and does not begin with '#' or '~' |
| ShellQuoting.QuotesWhereNeeded | internal/faults/driver.go:108-116 | a word is left bare only where that is safe; of the safe words exactly those with a ']', '#' or '~' are quoted all the same; every other word but the empty one is put in single quotes |
| ShellQuoting.EscapeInOrder | internal/faults/driver.go:115 | escaping works character by character |
| ShellQuoting.JoinInOrder | internal/faults/driver.go:105 | joining puts exactly one blank between neighbours |
| ShellQuoting.CommandLine | internal/faults/driver.go:95-106 | the loop's command line reads back as name and arguments |

## Left out

- RaftNode.Node.constructor: does not derive a seed from the name; the theorems hold for every draw. The configuration the source panics on is a precondition.
- RaftCluster.ClusterElectionSafety: ids are distinct and non-empty; OneVoteUnlessNameless shows why the empty name is excluded.
- FaultChain.WrappedConn.constructor: the panic of a negative reorder buffer size is not modelled.
- FaultChain.WrappedConn.Write: raw writes do not fail, so an error in the middle of a reorder flush is not modelled; delays and the latency ramp take no time here.
- LiveConn.LiveConnection.Write: one writer per connection, as the proxy has; several writers of one connection are the subject of WriteUsesFreshFold.
- Throttle.ThrottleBound: real numbers in place of floating point, and a positive rate.
- ConsistencyChecker.InMemoryChecker.RecordWrite: values are immutable here; the source keeps the caller's byte slice, so a caller that reuses its buffer changes the recorded history (the same holds of RecordRead).
- ConsistencyChecker.FlagsAreDescents: reads of values not yet written, and clients whose read keys collide, are not covered; violation texts are kept as their data.
- StaleRead.DepthOne: the query key is an arbitrary function of the query, not SHA-256; MaybeServeStale runs under a lock, so calls from several proxies sharing one fault are one sequence.
- StaleRead.ReplyLeg.Handle: packet faults are an arbitrary function on the chunk; the other pump and the reachability re-check only end the sequence of reads.
- ShellQuoting.QuotingRoundTrip: reserved words, assignments, brace expansion and a tilde after '=' or ':' are not modelled; the program name ssh and its options are fixed.
- NodeFaults.Engine.RunNodeFault: drivers are an arbitrary success or failure per node; a failing revert counts as reverted, as the source only logs it.
- Terms, generations, counters and sizes are unbounded naturals: uint64 wrap-around is not modelled.
- Leader and RunUntilLeader of the simulator: one-line consequences of Leaders and Tick.
- That some election succeeds: it depends on the distribution of the timeouts; Convergence begins where a leader of the highest term exists.
- HTTP control API, authentication, command line, dashboard, docker harness, configuration and the fault catalogue: input, output and long case lists.
- Node drivers, workload faults, topology and data faults, corruption and lag of packets: they shell out, need a live database, or are one-line updates.
