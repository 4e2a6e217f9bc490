# Verification of FleetQoX

FleetQoX moves robot-fleet traffic over unreliable links. This project models nine of its
components in Dafny and proves what they promise.

- **Raft** (`RaftCore`, `RaftCluster`, `RaftSafety`, `RaftCommit`, `RaftCatchUp`, `RaftWitness`): class `RaftNode`
  updates its fields in place and is proved to follow pure steps. A cluster is any set of nodes over a
  network that is the set of all messages ever sent, so loss, duplication, delay and reordering are
  all there; a restart keeps term, vote and log. Election safety, log matching and append-only
  leaders hold as coded. Commit safety does not: a follower's success reply counts its whole log, so
  an unrelated longer tail passes for replicated, and `RaftWitness` reaches a state in which two
  nodes have applied different commands. It holds on all runs that meet two side conditions, which
  `RaftCommit` states and reduces to guards a replica can check; neither condition alone is enough,
  as a second run in `RaftWitness` shows. `RaftCatchUp` bounds the rounds a lagging follower needs.
- **Repair scheduler** (`RepairScheduler`): the knapsack dynamic program with pruning is optimal
  against all selections.
- **Gateway store** (`GatewayStore`, `Gateway`, `GatewayRuns`): the durable store is a value with
  atomic transactions; classes update it and a gateway's memory in place; runs interleave any number
  of gateways with crashes, I/O errors and arbitrary clocks.
- **Admission policy** (`AdmissionPolicy`): epoch quotas, repair budget, export and restore.
- **ACK/NACK and recovery** (`RmwAck`, `RmwRecovery`, `RmwLoop`): gap tracking, retransmit history and
  whole runs of the loop between them. Whether that loop always ends depends on expiry. A history of
  window + 1 is safe if nothing has expired up to the delivery. But a retransmission restarts a
  frame's horizon, so an old frame can outlive newer ones: with any horizon above 0 only a history
  of at most window is always safe, and beyond it a loop can go on for ever while its passes come
  within the horizon of each other. With a horizon of 0 every loop ends.
- **Robot budget** (`RobotBudget`) and **predictive admission** (`PredictiveAdmission`): budget passes
  over decision maps and tiered admission.
- **Backend codec** (`BackendCodec`): the length-prefixed request and response formats.
- **Control lease** (`ControlLease`): local enforcement of leases and motion limits.

`Collections`, `Numbers`, `Sorting`, `Wrappers` and `FlowModel` hold what several modules share.
Check everything with `dafny verify dfyconfig.toml`.

The code and its comments differ in two places. fleetqox/raft.py:71-76 calls the follower's log
length a safe optimization; it is not, see above. fleetqox/quic_gateway_state.py:654 says that a
document is restored only when all its ranges match; one that is refused late has replaced part of
the state by then (`AdmissionPolicy.RefusedUntouchedWhen`). A detail of the source that the model
keeps: a duplicate refreshes its key in memory (fleetqox/quic_gateway_state.py:2021) while stored
keys age by insertion, so the two dedup sets drift apart, and the results about duplicates rest on
the stored keys alone.

## Model

| member | source | states |
|---|---|---|
| RaftSafety.ElectionSafety | fleetqox/raft.py:137-169 | over any run with lost, duplicated, delayed and reordered messages and restarts, at most one node is ever leader in a term |
| RaftSafety.LogMatching | fleetqox/raft.py:212-249 | as coded: two logs that agree on the term at an index are identical up to it, and that stretch is a prefix of that term’s leader’s log |
| RaftSafety.LeaderAppendOnly | fleetqox/raft.py:302-307 | a leader’s log at one moment of its term is a prefix of its log at any later moment of that term |
| RaftSafety.NextKeepsInv | fleetqox/raft.py:146-317 | every enabled step of any replica keeps the cluster invariant behind the results above |
| RaftSafety.HistoryGrows | fleetqox/raft.py:137-209 | votes, elections, leader logs and messages recorded in a run are never taken back |
| RaftSafety.MajoritiesMeet | fleetqox/raft.py:98-98 | two majorities of the members share a voter |
| RaftCommit.StateMachineSafety | fleetqox/raft.py:265-317 | in runs where success replies are truthful and rejection hints stay within the leader’s log, no two nodes ever apply different commands at one index |
| RaftCommit.CommittedStays | fleetqox/raft.py:265-300 | in such runs, what any node counts as committed is on the log of every leader of its term or a later one |
| RaftCommit.LeaderCompleteness | fleetqox/raft.py:127-135 | an entry committed in a term is on the log of every later leader |
| RaftCommit.CommittedAgree | fleetqox/raft.py:283-300 | entries committed in two terms agree wherever both reach |
| RaftCommit.AdvanceIsCommitted | fleetqox/raft.py:283-300 | the commit rule only accepts entries of the leader’s own term that a majority has acknowledged |
| RaftCommit.NextKeepsSafe | fleetqox/raft.py:195-317 | every step that meets the two side conditions keeps the commit invariant |
| RaftCommit.TruthfulWhen | fleetqox/raft.py:247-249 | in every run, the log counted by a success reply is on the leader’s log exactly when it is no longer and agrees on its own last term |
| RaftCommit.GuardIsTruthful | fleetqox/raft.py:236-249 | a follower that replies only when its log ends with the request’s stretch, or in the leader’s term, replies truthfully |
| RaftCommit.GuardedRunIsClean | fleetqox/raft.py:236-281 | if every replica keeps to locally checkable guards, the run meets both side conditions |
| RaftCommit.BlankCuts | fleetqox/raft.py:183-235 | a request for an index its leader lacks cuts a shared entry exactly when the follower shares an entry at that index |
| RaftWitness.DifferentCommandsApplied | fleetqox/raft.py:247-272 | as coded, for any two commands a three-node run applies one on one node and the other on another at index 0, though every rejection hint in it stays within the leader’s log |
| RaftWitness.DifferentDespiteTruth | fleetqox/raft.py:180-191 | the same for any two commands in a run in which every success reply is truthful: a request for an index its leader lacks, delivered again later, cuts a committed entry |
| RaftCatchUp.CatchesUp | fleetqox/raft.py:265-281 | a leader and a follower that exchange requests and replies undisturbed end with the leader’s whole log at the front of the follower’s, after at most next-index rejections and one acceptance |
| RaftCatchUp.CatchesUpInRun | fleetqox/raft.py:212-281 | the same from every reachable cluster state, for every leader and every node of no newer term |
| RaftCatchUp.RejectionBacksOff | fleetqox/raft.py:277-281 | each rejection moves the next index down and keeps the logs comparable |
| RaftCatchUp.MatchReplicates | fleetqox/raft.py:225-245 | a request that passes the consistency check replicates the leader’s whole log |
| RaftCore.CommitSearchIsGreatest | fleetqox/raft.py:290-300 | the downward search finds the greatest committable index above the commit index, or none |
| RaftCore.RaftNode.constructor | fleetqox/raft.py:90-117 | a fresh replica has empty log, no vote, and indices -1 |
| RaftCore.RaftNode.StepDownIfStale | fleetqox/raft.py:137-142 | adopts a newer term, forgets the vote and follows |
| RaftCore.RaftNode.ElectionTimeout | fleetqox/raft.py:146-161 | a non-leader becomes candidate of the next term, votes for itself and asks every peer |
| RaftCore.RaftNode.HeartbeatDue | fleetqox/raft.py:171-178 | only a leader sends, one request per peer |
| RaftCore.RaftNode.AppendEntriesFor | fleetqox/raft.py:180-191 | the request for a peer carries the log from its next index and the term before it |
| RaftCore.RaftNode.RequestVoteReceived | fleetqox/raft.py:195-210 | one vote per term, only for an up-to-date log |
| RaftCore.RaftNode.AppendEntriesReceived | fleetqox/raft.py:212-251 | rejects, truncates or merges, and moves the commit index, exactly as the step function |
| RaftCore.RaftNode.InsertEntries | fleetqox/raft.py:236-245 | the in-place merge of entries equals the merge function |
| RaftCore.RaftNode.VoteReplyReceived | fleetqox/raft.py:253-263 | a candidate of the same term counts the vote and leads at a majority |
| RaftCore.RaftNode.Promote | fleetqox/raft.py:163-169 | a new leader starts next and match indices afresh and sends at once |
| RaftCore.RaftNode.AppendReplyReceived | fleetqox/raft.py:265-281 | success sets match and next index from the hint; rejection backs off and resends |
| RaftCore.RaftNode.AdvanceCommitIndex | fleetqox/raft.py:283-300 | the loop commits what the search function says |
| RaftCore.RaftNode.CountMatches | fleetqox/raft.py:293-295 | counts the peers whose match index reaches the candidate |
| RaftCore.RaftNode.ProposeCommand | fleetqox/raft.py:302-307 | only a leader appends, under its own term |
| RaftCore.RaftNode.TakeCommitted | fleetqox/raft.py:309-317 | hands out exactly the commands between last applied and commit index, in order |
| RepairScheduler.Schedule | fleetqox/repair_scheduler.py:155-212 | fails only without paths or with a non-positive payload; otherwise its decisions, in the order of demand ids, implement a selection that beats every choice of at most one option per demand within byte capacity and admission limit: most utility, then most repairs, then fewest bytes |
| RepairScheduler.Solve | fleetqox/repair_scheduler.py:166-199 | the dynamic program with pruning returns an optimal selection |
| RepairScheduler.ExtendEntry | fleetqox/repair_scheduler.py:172-189 | extending one state by every option that fits keeps all states sound and reaches every extension |
| RepairScheduler.ExtendRow | fleetqox/repair_scheduler.py:170-190 | one demand later, every selection that fits is covered by a state |
| RepairScheduler.RowComplete | fleetqox/repair_scheduler.py:170-190 | coverage of all selections survives one more demand |
| RepairScheduler.ParetoPrune | fleetqox/repair_scheduler.py:300-315 | pruning keeps, for every state, one at least as good in utility, repairs and bytes |
| RepairScheduler.PruneComplete | fleetqox/repair_scheduler.py:300-315 | so no selection loses its cover by pruning |
| RepairScheduler.PickBest | fleetqox/repair_scheduler.py:192-199 | the final choice beats all remaining states |
| RepairScheduler.BestIsOptimal | fleetqox/repair_scheduler.py:192-199 | and therefore every feasible selection |
| RepairScheduler.KeepSound | fleetqox/repair_scheduler.py:289-298 | keeping the better of two values for a key keeps states sound |
| RepairScheduler.DecisionsTally | fleetqox/repair_scheduler.py:201-212 | the decisions spend exactly the bytes, repairs and utility of the selection |
| RepairScheduler.RankedByRisk | fleetqox/repair_scheduler.py:221-221 | paths are ranked by rising risk, equal ones in the order given |
| RepairScheduler.IdsAscend | fleetqox/repair_scheduler.py:160-160 | demands are taken in ascending order of their ids as texts, equal ids in the order given |
| RepairScheduler.DeferAllFits | fleetqox/repair_scheduler.py:173-173 | deferring everything is always feasible |
| GatewayRuns.LogContinuity | fleetqox/quic_gateway_state.py:1267-1360 | in every reachable state, after any crashes and failovers, a stream’s stored frames have consecutive offsets up to the last one assigned, fit the limit and have pairwise different dedup keys |
| GatewayRuns.OffsetNeverReassigned | fleetqox/quic_gateway_state.py:1508-1594 | rows seen under one offset at any two moments of a run are the same frame |
| GatewayRuns.AcceptedContinuesLog | fleetqox/quic_gateway_state.py:2029-2083 | an accepted frame gets the number of frames accepted before it as its offset, and its key is new among the last dedup-capacity frames |
| GatewayRuns.TokensAreFenced | fleetqox/quic_gateway_state.py:1362-1401 | the stored token never falls and one token never has two holders |
| GatewayRuns.CommitNeedsFence | fleetqox/quic_gateway_state.py:1519-1527 | data change only in a step whose writer holds the stored, unexpired lease |
| GatewayRuns.SupersededNeverCommits | fleetqox/quic_gateway_state.py:1462-1477 | a writer whose token was superseded never commits a frame, cursor or outcome again, whatever the clocks read |
| GatewayRuns.OneWriterPasses | fleetqox/quic_gateway_state.py:1462-1477 | two writers never both pass the fence in one state, even with different clocks |
| GatewayRuns.MemoryMirrorsDisk | fleetqox/quic_gateway_state.py:2007-2090 | a running writer that still holds the stored lease has in memory the records, next offset and cursors recovery would rebuild, and recovery would trim nothing |
| GatewayRuns.ConsumerDelivery | fleetqox/quic_gateway_state.py:2278-2309 | over a whole run a consumer gets logged frames at strictly rising offsets, and every offset below its cursor was given, lost in a crash after the commit, or gone |
| GatewayRuns.GoneWasEvicted | fleetqox/quic_gateway_state.py:2284-2299 | an offset is gone only if some take passed it after it had been logged and evicted |
| GatewayRuns.NothingLost | fleetqox/quic_gateway_state.py:2290-2299 | over any stretch of a run in which no take of this consumer crashes between cursor commit and reply, nothing is lost to it |
| GatewayRuns.UncrashedDelivery | fleetqox/quic_gateway_state.py:2278-2309 | every offset its cursor passes in such a stretch was given to it or had been evicted |
| GatewayRuns.NextAdvances | fleetqox/quic_gateway_state.py:2278-2309 | no step moves a consumer’s cursor back, and what crashes lost stays below it |
| GatewayRuns.RunKeepsInv | fleetqox/quic_gateway_state.py:1362-1701 | every step of any gateway keeps tables, memories and consumers consistent |
| GatewayRuns.RecoverTrimsNothing | fleetqox/quic_gateway_state.py:1314-1328 | recovery under the limits the writers used removes no row |
| GatewayRuns.AcceptedKeepsStreams | fleetqox/quic_gateway_state.py:1528-1568 | an append with eviction and key ageing leaves every table the tail of its log |
| GatewayRuns.TakeMoves | fleetqox/quic_gateway_state.py:2278-2309 | a take delivers the first stored frame at or after the cursor and passes only evicted offsets |
| GatewayRuns.RunIsOnward | fleetqox/quic_gateway_state.py:1362-1401 | logs and what consumers were given only grow, and leases only move forward |
| Gateway.DurableStore.AcquireWriterLease | fleetqox/quic_gateway_state.py:1362-1401 | refused while another holder’s lease runs; a live lease of the same holder keeps its token, otherwise the next token is taken |
| Gateway.DurableStore.RenewWriterLease | fleetqox/quic_gateway_state.py:1403-1437 | extends only a current, unexpired lease |
| Gateway.DurableStore.ReleaseWriterLease | fleetqox/quic_gateway_state.py:1439-1460 | ends only the own lease and forgets it |
| Gateway.DurableStore.VerifyWriterLease | fleetqox/quic_gateway_state.py:1462-1477 | passes exactly unleased writers and holders of the stored, unexpired lease |
| Gateway.DurableStore.AppendFrame | fleetqox/quic_gateway_state.py:1508-1594 | all or nothing: fence, both uniqueness checks, insert, evict one, age keys out |
| Gateway.DurableStore.SetCursor | fleetqox/quic_gateway_state.py:1596-1626 | stores the cursor only behind the fence |
| Gateway.DurableStore.CommitOutcome | fleetqox/quic_gateway_state.py:1628-1701 | an unknown frame is an error, a repeat changes nothing, a new outcome is stored and old ones aged out |
| Gateway.DurableStore.RecoverStream | fleetqox/quic_gateway_state.py:1282-1328 | replay and trimming loops rebuild one history |
| Gateway.DurableStore.RecoverAll | fleetqox/quic_gateway_state.py:1267-1360 | rebuilds every history and trims the tables to match |
| Gateway.GatewayState.constructor | fleetqox/quic_gateway_state.py:1963-1973 | a gateway starts with what recovery rebuilds |
| Gateway.GatewayState.Publish | fleetqox/quic_gateway_state.py:2007-2090 | duplicate, rejected, failed and accepted publishes change store and memory exactly as specified |
| Gateway.GatewayState.Take | fleetqox/quic_gateway_state.py:2278-2309 | the cursor is committed before the frame is returned, and memory follows only a commit |
| AdmissionPolicy.QuotasHold | fleetqox/quic_gateway_state.py:454-527 | over every run with admissions, epoch changes, rollbacks and recoveries: stream counts sum to the total, class counts to the cumulative count, no stream, fleet or repair limit is exceeded, and the cumulative count is at most resets*(M+R) + total + repairs |
| AdmissionPolicy.SavedIsRestorable | fleetqox/quic_gateway_state.py:653-762 | every document exported in a run passes all checks of the restore |
| AdmissionPolicy.RestoreAfterExport | fleetqox/quic_gateway_state.py:592-827 | at one clock reading, restore after export gives the exported state without observations exactly as old as the TTL |
| AdmissionPolicy.RestoreIsIdentityWhen | fleetqox/quic_gateway_state.py:760-761 | and is the identity if and only if there is no such observation |
| AdmissionPolicy.RollbackKeepsQuotas | fleetqox/quic_gateway_state.py:789-790 | with a moving clock the quotas come back exactly when the epoch does not end in between, and the epoch start shifts by the pause |
| AdmissionPolicy.RollbackInRun | fleetqox/quic_gateway_state.py:2030-2070 | a publish whose commit fails, at any point of a run, changes no quota, budget, decision or counter |
| AdmissionPolicy.ExportIsAcceptable | fleetqox/quic_gateway_state.py:592-651 | what a reachable state exports is in range |
| AdmissionPolicy.AdmitSound | fleetqox/quic_gateway_state.py:454-527 | admission keeps every limit and every sum |
| AdmissionPolicy.AcceptConserves | fleetqox/quic_gateway_state.py:519-526 | a normal admission keeps the sums and limits |
| AdmissionPolicy.RepairConserves | fleetqox/quic_gateway_state.py:887-894 | so does a repair admission |
| AdmissionPolicy.ResetConserves | fleetqox/quic_gateway_state.py:832-844 | so does an epoch change of any length |
| AdmissionPolicy.EpochFacts | fleetqox/quic_gateway_state.py:832-844 | moving on by whole epochs never overtakes the clock and leaves less than one epoch |
| AdmissionPolicy.GatewayAdmissionPolicy.RefreshEpoch | fleetqox/quic_gateway_state.py:832-844 | resets the epoch quotas exactly when at least one epoch has passed |
| AdmissionPolicy.GatewayAdmissionPolicy.ExpireObservations | fleetqox/quic_gateway_state.py:1128-1137 | drops and counts observations older than the TTL |
| AdmissionPolicy.GatewayAdmissionPolicy.AskScheduler | fleetqox/quic_gateway_state.py:855-883 | one demand is scheduled within the bytes left, so the grant fits them |
| AdmissionPolicy.GatewayAdmissionPolicy.TryToRepair | fleetqox/quic_gateway_state.py:846-894 | repairs only when asked for, within count and bytes |
| AdmissionPolicy.GatewayAdmissionPolicy.AdmitFrame | fleetqox/quic_gateway_state.py:454-527 | rule, class, publisher, score, stream quota and fleet quota are checked in this order, with a repair attempt before each quota refusal |
| AdmissionPolicy.GatewayAdmissionPolicy.ExportState | fleetqox/quic_gateway_state.py:592-651 | exports after refreshing and expiring |
| AdmissionPolicy.RefusedUntouchedWhen | fleetqox/quic_gateway_state.py:653-827 | a refused document leaves every state untouched if and only if its age, totals, stream rows or repair bytes are refused, or an observation is with no accepted one before it |
| AdmissionPolicy.RowsAreCounted | fleetqox/quic_gateway_state.py:742-784 | observations accepted before a refusal are counted one by one and change nothing but observations and their counters |
| AdmissionPolicy.GatewayAdmissionPolicy.RestoreState | fleetqox/quic_gateway_state.py:653-827 | accepts exactly in-range documents and then equals the restore function; a refused document leaves what was replaced up to the refusal, in the order of the checks |
| RmwAck.FeedbackIsExact | fleetqox/rmw_ack.py:34-193 | after any observations the ranges are ascending, disjoint and maximal and name exactly the numbers above the contiguous mark never received or fallen out of the window; 1 up to the mark were all received |
| RmwAck.TrackerIsExact | fleetqox/rmw_ack.py:61-78 | highest, observed set and contiguous mark against the set of all numbers received |
| RmwAck.FindMissing | fleetqox/rmw_ack.py:168-193 | the accumulating loop equals the range function |
| RmwAck.RangesExact | fleetqox/rmw_ack.py:168-193 | a number is in a range iff it is above the mark, not above the highest and not observed |
| RmwAck.RangesCanonical | fleetqox/rmw_ack.py:168-193 | ranges are ascending with a gap between any two |
| RmwAck.RmwAckNackTracker.ObserveSequence | fleetqox/rmw_ack.py:34-59 | one observation updates one stream and reports duplicate, order and missing ranges |
| RmwRecovery.LoopEndsWhen | fleetqox/rmw_transport_loop.py:105-123 | the retransmit loop ends exactly when no held number below the window lies behind a gap, and then one round is enough |
| RmwRecovery.HistoryFitsWindow | fleetqox/rmw_transport_loop.py:88-123 | when nothing expires and the history is therefore the newest numbers, the loop ends after every delivery, whatever was delivered before, if and only if the history is at most one longer than the window |
| RmwRecovery.GapForever | fleetqox/rmw_transport_loop.py:105-123 | with a longer history, nothing expiring, there is a delivery after which frame 2 is retransmitted in every round and never counts |
| RmwRecovery.SecondRoundIsIdle | fleetqox/rmw_transport_loop.py:105-123 | a second round changes nothing |
| RmwRecovery.RetransmittedIsWanted | fleetqox/rmw_socket.py:105-121 | what is sent again is, in ascending order, exactly what is missing and held |
| RmwRecovery.HistoryIsNewest | fleetqox/rmw_socket.py:175-191 | after sending 1..n with nothing expired the history is the newest numbers |
| RmwRecovery.CappedKeepsHighest | fleetqox/rmw_socket.py:185-191 | pruning keeps the highest numbers and exactly as many as allowed |
| RmwRecovery.FleetRmwSocketTalker.Prune | fleetqox/rmw_socket.py:175-191 | expires and caps every stream |
| RmwRecovery.FleetRmwSocketTalker.Remember | fleetqox/rmw_socket.py:154-173 | stores the frame with its own time stamp, then prunes every stream at a later reading |
| RmwRecovery.FleetRmwSocketTalker.Retransmit | fleetqox/rmw_socket.py:91-129 | after pruning, sends requested frames still held, in order and at most as many as allowed, restarts the horizon of each with its own time stamp, and reports the requested numbers looked at and not held |
| RmwLoop.HistoryWithinWindow | fleetqox/rmw_transport_loop.py:43-123 | over all runs of publishing, skipping, expiring and retransmitting, under every clock that never runs backwards, reads later in every pass and passes every bound, the recovery loop ends after every delivery if and only if the history is no longer than the listener’s window or the horizon is 0 |
| RmwLoop.LastingHistoryWithinWindow | fleetqox/rmw_transport_loop.py:43-123 | after deliveries up to which nothing has expired it does so if and only if the history is at most one longer than the window or the horizon is 0 |
| RmwLoop.StuckForever | fleetqox/rmw_socket.py:91-129 | from a state in which frame 2 is held below the window and behind the gap of frame 1, the loop sends it again in every pass under every clock on which a pass comes within the horizon of the one before |
| RmwLoop.RefreshGetsStuck | fleetqox/rmw_socket.py:91-129 | for any window, any horizon above 0 and any longer history a run reaches such a state: a retransmitted frame got a new horizon, outlives the frame that asked for it and leaves the window |
| RmwLoop.RefreshNeverEnds | fleetqox/rmw_socket.py:91-129 | so some run and some clock that moves on give a loop that never ends |
| RmwLoop.LongHistoryNeverEnds | fleetqox/rmw_transport_loop.py:105-123 | with a history two longer than the window and a horizon above 0 this happens although nothing has expired up to the delivery |
| RmwLoop.ZeroHorizonEnds | fleetqox/rmw_socket.py:175-191 | with a horizon of 0 two passes end the loop, whatever the history |
| RmwLoop.WithinWindowEnds | fleetqox/rmw_transport_loop.py:105-123 | with a history inside the window, after any run and whatever expires, two passes end the loop, even if the clock stands still |
| RmwLoop.LastingEnds | fleetqox/rmw_transport_loop.py:105-123 | with a history one longer than the window and nothing expired up to the delivery, two passes end it too |
| RmwLoop.NextKeepsInv | fleetqox/rmw_socket.py:91-191 | with a history inside the window every publication, delivery and pass keeps the run invariant: each held frame is outlasted by all its successors but at most one, and by all while it is missing |
| RmwLoop.DrainOneDelivery | fleetqox/rmw_transport_loop.py:88-123 | the loop over the objects computes, pass by pass, the talker’s history, the listener’s tracking and the number of frames sent again; it takes one frame more than were sent again; when it ends, nothing still held is missing; other streams are not heard of and only fade |
| RmwLoop.PublishAll | fleetqox/rmw_transport_loop.py:54-79 | a whole stream over the objects: with a history inside the window two passes per delivery always do, and at the end nothing still held is missing; what is taken is what was delivered at once and what was sent again |
| RmwLoop.Run | fleetqox/rmw_transport_loop.py:43-86 | all streams, one after the other over the same talker and listener: the same for every stream at the end, although frames of earlier ones may have expired meanwhile |
| RobotBudget.Schedule | fleetqox/control_plane.py:1949-1981 | no base decision loses its flow, no sent control flow is un-sent, other flows only lose bytes, the total ends within the larger of base total and capacity, and guarded flows meet their slack; every control flow is answered: one whose robot is at or above the floor pressure was sent by the floor, has no feasible form, or did not fit with everything else deferred, and later passes change it only by lifting its deadline |
| RobotBudget.ServedInTheEnd | fleetqox/control_plane.py:2548-2582 | so at the end of the pipeline such a flow is sent, has no feasible form, or was too large at its turn, and then every flow that could be deferred is deferred |
| RobotBudget.RobotBudgetPasses.Reclaim | fleetqox/control_plane.py:2850-2880 | defers sent non-control flows in priority and size order, frees exactly what it reports, and no more flows than needed |
| RobotBudget.RobotBudgetPasses.Place | fleetqox/control_plane.py:2569-2582 | a control decision is placed with an exact byte count, and turned away only if it does not fit with every other flow deferred |
| RobotBudget.RobotBudgetPasses.ServeEveryRobot | fleetqox/control_plane.py:2608-2666 | robots without a sent control flow get one in waiting order; exactly the robots with one are marked served; the counter stays exact |
| RobotBudget.RobotBudgetPasses.ServeRobot | fleetqox/control_plane.py:2633-2666 | one robot gets exactly its cheapest control floor, or none fits with every other flow deferred; other robots’ control flows stay |
| RobotBudget.RobotBudgetPasses.FloorControls | fleetqox/control_plane.py:2548-2582 | afterwards every control flow of a pressured robot is sent, has no feasible form, or cannot fit; nothing else but unsent control flows changes among control flows; the counter stays exact |
| RobotBudget.RobotBudgetPasses.LiftDeadlines | fleetqox/control_plane.py:2705-2746 | exactly the sent intents of robots in deadline debt get their lifted form, unless no other flow has bytes left to give; the counter stays exact |
| RobotBudget.RobotBudgetPasses.Shape | fleetqox/control_plane.py:2892-2953 | shapes only this robot’s sheddable flows, in class, priority and size order, until the target or the end, and frees exactly what it reports |
| RobotBudget.RobotBudgetPasses.PressuredRobots | fleetqox/control_plane.py:2548-2606 | which robots’ traffic is shaped, and at which pressure |
| RobotBudget.RobotBudgetPasses.ApplyFloor | fleetqox/control_plane.py:2527-2606 | through all passes the counter equals the true sum of sent bytes, and every control flow is answered |
| RobotBudget.RobotBudgetPasses.ApplyFirewall | fleetqox/control_plane.py:3042-3083 | afterwards every sent flow of a guarded class fits its slack, and the total has not grown |
| RobotBudget.KeptTrans | fleetqox/control_plane.py:2527-2606 | what every pass keeps composes over passes |
| RobotBudget.TotalAfter | fleetqox/control_plane.py:2536-2539 | rewriting one decision moves the sum by the difference of its sent bytes |
| RobotBudget.IndexTotal | fleetqox/control_plane.py:2533-2537 | with one decision per flow, the indexed total is the sum over the list |
| PredictiveAdmission.AllTiersWithin | fleetqox/control_plane.py:424-450 | bytes, packets and channel time of all tiers together, the discounted last one included, stay within the link’s budget |
| PredictiveAdmission.ByteBudgetHoldsWhen | fleetqox/control_plane.py:438-441 | the byte budget holds for all flows if and only if the truncated fraction of the capacity does not exceed it |
| PredictiveAdmission.OfferIsModest | fleetqox/control_plane.py:562-618 | a flow that fits is sent whole unless pressure compacts it; only core flows are compacted, only degradable ones degraded, and no form is larger than the flow |
| PredictiveAdmission.TiersDecideOnce | fleetqox/control_plane.py:526-560 | every flow is admitted at most once over all tiers |
| PredictiveAdmission.PartitionsCover | fleetqox/control_plane.py:495-524 | the four tiers together hold every flow exactly once |
| PredictiveAdmission.TiersAreOrdered | fleetqox/control_plane.py:519-524 | inside a tier no flow stands in front of one that must come first, and flows of equal rank keep their order |
| PredictiveAdmission.AdmitPartition | fleetqox/control_plane.py:526-560 | the admission loop equals the tier function |
| PredictiveAdmission.EstimatesStayWithin | fleetqox/control_plane.py:472-483 | for a weight in [0,1], whatever a link reads over time, no estimate leaves the range of its first value and its readings |
| PredictiveAdmission.EstimatesConverge | fleetqox/control_plane.py:472-483 | while a link keeps reading the same, the distance of every estimate to the reading shrinks by the factor 1 - weight at each update |
| PredictiveAdmission.PressureIsBounded | fleetqox/control_plane.py:485-493 | after any readings none of which is below lo, the pressure is at least the load on the link’s capacity and at most the load on lo under the safety margin and the highest loss counted |
| PredictiveAdmission.PredictiveAdmissionController.Schedule | fleetqox/control_plane.py:390-470 | exactly one decision per candidate, in ascending order of flow ids: the admitted ones within all budgets, the rest dropped or deferred at no cost, under the pressure of the link readings seen so far |
| PredictiveAdmission.DecideAll | fleetqox/control_plane.py:452-470 | who is not admitted is dropped or deferred |
| BackendCodec.RequestRoundTrip | fleetqox/public_quic_gateway_backend.py:85-216 | reading an encoded request followed by any bytes returns it and leaves exactly those bytes |
| BackendCodec.RequestIsCanonical | fleetqox/public_quic_gateway_backend.py:117-174 | whatever is accepted re-encodes to the bytes that were read |
| BackendCodec.AcceptedIffEncoded | fleetqox/public_quic_gateway_backend.py:117-216 | accepted byte strings are exactly the encodings of valid requests within the body limit |
| BackendCodec.ResponseRoundTrip | fleetqox/public_quic_gateway_backend.py:219-255 | an encodable response comes back if and only if its status is 100 to 599 |
| BackendCodec.ResponseIsCanonical | fleetqox/public_quic_gateway_backend.py:237-255 | an accepted response re-encodes to the bytes that were read |
| BackendCodec.UnpackOfPack | fleetqox/public_quic_gateway_backend.py:37-38 | unpacking a packed header gives its values |
| BackendCodec.PackOfUnpack | fleetqox/public_quic_gateway_backend.py:37-38 | packing unpacked values gives the header |
| BackendCodec.ReadExact | fleetqox/public_quic_gateway_backend.py:107-114 | collects short reads into exactly the requested bytes, or reports truncation |
| BackendCodec.ReadBackendRequest | fleetqox/public_quic_gateway_backend.py:117-174 | the reader agrees with the parsing function in result, error and bytes left |
| ControlLease.LetThroughInTime | fleetqox/local_control_lease.py:303-348 | a command is let through only under an unexpired lease, at most the local maximum lifespan after the active lease was received |
| ControlLease.OnlyStopsAfterExpiry | fleetqox/local_control_lease.py:350-400 | with the stop action nothing but a stop is published after the active lease has expired |
| ControlLease.MotionIsSmooth | fleetqox/local_control_lease.py:433-482 | at strictly increasing times velocity changes, jerk steps and accelerations stay within the policy |
| ControlLease.AcceptedAsRequested | fleetqox/local_control_lease.py:433-482 | a command reported as accepted is published as requested, up to the tolerance of the clipping test on the rate-limited axes |
| ControlLease.RunBounded | fleetqox/local_control_lease.py:402-482 | accelerations and the four clipped axes stay within the policy in every reachable state |
| ControlLease.LeasesOnlyAdvance | fleetqox/local_control_lease.py:258-301 | when every envelope has an event id, the active id never decreases and the lease changes only with it |
| ControlLease.AccelBetween | fleetqox/local_control_lease.py:443-460 | acceleration and jerk limits of one axis |
| ControlLease.LocalControlLeaseState.IngestLease | fleetqox/local_control_lease.py:258-301 | stale and duplicate leases are ignored; a fresh pending command is evaluated under the new lease |
| ControlLease.LocalControlLeaseState.EvaluateCommand | fleetqox/local_control_lease.py:303-348 | no lease: remember; expired: fall back; else clip, limit and publish |
| ControlLease.LocalControlLeaseState.ExpiryDecision | fleetqox/local_control_lease.py:360-399 | stop, hold or drop on expiry |
| ControlLease.LocalControlLeaseState.Tick | fleetqox/local_control_lease.py:350-358 | the fallback of an expired lease happens once per event id |

## Left out

- RaftCommit.StateMachineSafety: holds on runs meeting the two side conditions only, because it is false otherwise: `RaftWitness.DifferentCommandsApplied` breaks only the first, `RaftWitness.DifferentDespiteTruth` only the second.
- RaftCommit.TruthfulWhen: append requests with a previous index below -1, which no replica sends, are outside the model of delivery.
- RmwLoop.DrainOneDelivery: stops after a given number of passes, because the source's loop has no bound and may not end; `RmwLoop.WithinWindowEnds` says when two passes are enough.
- RmwLoop.HistoryWithinWindow: the clock reads later in every pass than at the end of the one before, because datagrams go there and back in between; a clock too coarse to show it is outside the result for a horizon of 0.
- RmwLoop.Run: late recovery is on and every datagram that is sent to the listener arrives; the source raises an error otherwise.
- RobotBudget.Schedule: candidates have distinct flow ids; with a repeated id the source's own counter can differ from the sum.
- PredictiveAdmission.PredictiveAdmissionController.Schedule: candidates have distinct flow ids; of several with one id the source may leave the unadmitted ones without a decision.
- ControlLease.LeasesOnlyAdvance: envelopes carry event ids; one without an id is always accepted by the source and resets the order.
- ControlLease: no bound on the magnitude of published linear x and angular z, because clipping precedes the jerk-limited integration and the output can overshoot.
- Raft persistence and transport: term, vote and log survive a restart, replies go back to the requester, and each reply is handled by the node it was sent to.
- Liveness of Raft elections, timers and drivers (fleetqox/raft_writer_lease.py and others): not part of this model.
- GatewayRuns: gateways run under leases with distinct holder ids and common limits; a gateway without a lease is modelled as a store (`Gateway.DurableStore`) but not interleaved.
- GatewayRuns: the in-memory set of application outcome keys is not kept; outcomes may be committed for any known stored key, which allows more runs.
- An I/O error leaves a transaction without effect; a commit that took effect and was reported as failed is not modelled.
- A memory-only gateway, batches, metrics, HTTP handling and payload parsing of fleetqox/quic_gateway_state.py.
- SQL text and the PostgreSQL store (fleetqox/quic_gateway_postgres.py): the same transactions again.
- The admission document is a value with maps instead of sorted JSON lists, so repeated rows cannot occur; the order of its observations is a parameter of the restore. Schema, fingerprint and type checks are left out.
- How observations derive their debt (fleetqox/quic_gateway_state.py:956-1090) and the admission score itself: any value and any function of the observation is allowed.
- RepairScheduler: the utility formula, which is an arbitrary function; floating-point rounding throughout. Which of several equally good selections is found may depend on the order of dictionary entries, which is arbitrary here.
- RobotBudget: feedback learning, pressure formulas, transform generation and explanatory strings; transforms and pressures are inputs. Ties in priority and size are broken arbitrarily.
- BackendCodec: texts are their encoded bytes, with UTF-8 well-formedness checked on them; `dispatch` and sockets are left out.
- RmwAck: extraction of stream keys and numbers from records, and the hash identifying a feedback record.
- Schedulers, fleet optimizers, reports, sweeps and ROS adapters: easier members, not modelled.
