# HABS leader election and failover

HABS keeps one validator running out of several machines. Orchestrator nodes share a small chain whose pallet
holds, per group, the account of the current leader. A node that finds the leader silent takes its place by a
compare-and-swap transaction and then sets its service to active mode; all others keep theirs in passive mode. Two
active services in one group would sign twice, so "at most one active node per group" is what the system is for.
No single function decides it. A node counts as active here from the moment its service's mode is set
(orchestrator/src/service.js:24); its containers change only after that, and are modelled by themselves. This project models the pallet, the event listener, the heartbeat cache, the
decisions of a node, their interleaving over a whole federation, the containers and keys of the service, and the
configuration lists, and proves what holds over every run.

## How the model is built

- `Types.dfy`, `Pallet.dfy`: the pallet's storage, updated in place by a class and specified by functions, with
  the log of events. `Election.dfy` and `AccountIndex.dfy` hold the theorems about chain runs.
- `Heartbeats.dfy`, `Chain.dfy`: the heartbeat cache and the check whether the chain can take transactions.
- `Decisions.dfy`: what each operation of a node does when it runs without interruption, as functions of the node
  and of the answers it reads. `Orchestrator.dfy`: the class that does the same on its fields.
- `Takeover.dfy`: one whole operation of a node against the pallet, for all answers: what a cycle needs, and how the
  sitting leader, a contender, an unled group and the forced modes end it.
- `Tasks.dfy`: the operations cut at their awaits. `Runs.dfy`, `Safeguards.dfy`, `Steady.dfy`: one node over whole
  runs, in which events, requests and other tasks come between any two replies of a task.
- `Federation.dfy`: one chain and any number of nodes; every step of every task, every event delivery, restart,
  administrator's request, landing or loss of a sent transaction and outside transaction interleaves freely. A sent
  transaction stays on its way whatever its sender has been told meanwhile.
- `Members.dfy`: every member of every run of the federation goes through a run of one node, so that what is proved
  of one node holds within the federation.
- `Exclusion.dfy`, `Settling.dfy`, `Overlap.dfy`, `CacheSync.dfy`, `CacheFill.dfy`, `Leadership.dfy`, `Justice.dfy`,
  `Standing.dfy`, `Status.dfy`: theorems about all runs of the federation.
- `Containers.dfy`, `Keys.dfy`: the two containers and the imported keys. `ConfigLists.dfy`: printing and splitting.

The layers are tied together: each class method is proved equal to its function, a task run without interruption is
proved equal to the function, and both the runs of one node and the federation are built from the task steps.

## What the proofs say about the code

- Whatever happens, an active node is the author of its group's latest `NewLeader` event or has someone else's
  still to hear. So two nodes are active together only while one of them is behind on events.
- If each activation waits until every other node of the group has heard of the term it is based on, at most one
  node is ever active.
- The ten seconds after a take achieve this for every activation, also for those that do not wait, when events reach
  everyone within ten seconds and four rules are kept: a node is told of its take what became of it, it begins a task
  only when it has no other (which may be a cycle or a forced activation), it is not restarted while it has a task,
  and nobody else takes leadership with its key.
- All five are needed. `Overlap.ExclusionExactly` says for every delay and every choice of the four rules: all runs
  that keep to them are free of two active nodes in a group if and only if all four rules are chosen and the delay is
  at most ten seconds. For each rule there is a run that keeps to all others, with events heard at once wherever
  time passes, and ends with two active nodes, because a node that finds itself leader activates without any wait
  (orchestrator/src/orchestrator.js:96-100). With events up to eleven seconds late there is one that keeps all rules.
- When a cycle's take deposes a leader, at whatever time it lands, the task that sent it had read that leader and
  the led flag, and either had no heartbeat of it after enough checks or had recorded one that the leader really
  sent, the latest heard if any was heard, and that was older than the alive time when the take was sent.
- Failover is bounded. A node that hears no heartbeat of the leader and whose best number grows from one comparison
  to the next has its take in the pool at the latest in the cycle of comparison number max(0, heartbeat + aliveTime +
  1 - best), if the gate of that cycle is open; without any record of the leader, in every cycle that completes a
  round of threshold + 1 lookups. If the leader still leads when the take lands, the node succeeds it.
- A sitting leader is left alone. As long as the chain goes on naming it, its checks find the chain fit and itself
  and someone else alive, and its service is ready or in its grace period, it stays active at every moment. The grace
  period is thirty not-ready answers in a row; the next one makes it passive and switches its heartbeats off.
- A node that finds no peers or is synchronizing, at both attempts, sends neither a take nor a heartbeat. One that is
  configured as passive never takes leadership unless activation is requested.
- The status that the chain shows after a heartbeat is the mode of the sender when it read its switches, and the
  caches of the others show the same once they have heard it.
- A node that has switched its heartbeats off and whose own last heartbeat is too old never switches them on again,
  although the comment at orchestrator/src/orchestrator.js:349 reads as if readiness were enough: the check of its
  own heartbeat comes first. It needs a restart, a forced activation, a heartbeat of its own still underway or
  waiting for its gate when they were switched off (orchestrator/src/app.js:42-46), or a failed read of the best number, whose answer 0 lets every recorded heartbeat count as recent.
- The counter of checks without liveness data is not reset when a leader turns out to be alive or changes, so a new
  leader without data may be deposed at the first look. Counter and takeovers are remainder and quotient of all such
  checks, whoever led.
- Saturation keeps the account counter from overflowing (comment at chain/pallets/archipel/src/lib.rs:103), but from
  the 2^32nd account on the count is wrong and from the next one on accounts share an index.
- Starting a mode whose container already runs leaves a container of the other mode alone; this cannot arise from a
  clean start. The readiness test can succeed if and only if the six validator keys are different.
- A recorded heartbeat goes back only at a restart or when the fill reads a wallet again: over all reads, the fill
  never lowers a record if and only if no wallet is listed twice. A second read that fails records 0.

## Assumptions

- One linear chain. Each node hears all events from its subscription on, once, in order. A read of the leader or of
  the led flag answers the state at some moment no earlier than the last event heard, or fails; this includes reads
  that are answered at once and reads answered on the same ordered connection as the events.
- Reading the leader and setting the mode is one step: the mode is assigned before anything is awaited
  (orchestrator/src/service.js:24).
- Cycles begin after the subscription is in place; the code starts it first but does not await it
  (orchestrator/src/app.js:35).
- The checks inside one call of `canSendTransactions` are one step, since only its first read changes anything.
- Block numbers that a node reads are at most the chain's current one; nothing else is assumed of them.
- Failed reads answer the code's own sentinels. A leader that could not be read cannot be named in a transaction:
  encoding the sentinel as an address is taken to raise an error, which ends the task and leaves the mode alone.
- Keys of different nodes differ, and none is the default account.
- Service starts do not overlap, and docker operations succeed except that an image may be missing.

## Model

| member | source | states |
|---|---|---|
| Pallet.Storage.SetLeader | chain/pallets/archipel/src/lib.rs:123-143 | Takes the leadership if the group has no leader or the named old leader is the current one and not the sender; otherwise reports which check failed and changes nothing |
| Pallet.Storage.GiveUpLeadership | chain/pallets/archipel/src/lib.rs:146-165 | Clears both leader entries for the current leader only, reporting the failed check otherwise |
| Pallet.Storage.AddHeartbeat | chain/pallets/archipel/src/lib.rs:169-190 | Numbers a new account and stores block, group and status under the sender, depositing the event |
| Pallet.Storage.AddAccount | chain/pallets/archipel/src/lib.rs:98-113 | Gives a new account the next index under a saturating count and leaves a known one alone |
| Election.StepOnSlot | chain/pallets/archipel/src/lib.rs:122-165 | The pallet refines one compare-and-swap register per group: effect and success of a step depend on that group's slot only |
| Election.LeaderIsLastTaker | chain/pallets/archipel/src/lib.rs:82-90 | If the events name a leader, it is the author of the latest NewLeader event |
| Election.ReplayGivesLeaders | chain/pallets/archipel/src/lib.rs:54-62 | In every run the events replay to exactly the leader map, and a group has a leader entry exactly when it is flagged as led |
| Election.OnlyTheLeaderGivesUp | chain/pallets/archipel/src/lib.rs:146-156 | In every reachable state giving up succeeds if and only if the sender is the stored leader |
| Election.GiveUpRefusals | chain/pallets/archipel/src/lib.rs:149-156 | In every reachable state giving up is refused for want of a leader or because another leads, exactly as the errors say |
| Election.TakeRefusals | chain/pallets/archipel/src/lib.rs:126-135 | A take is refused in a led group only: for naming its own sender, whoever leads, or otherwise for naming someone who does not lead |
| Election.TakesFormAChain | chain/pallets/archipel/src/lib.rs:126-135 | Of two successive successful takes without give-up between, the later named the author of the earlier and is by someone else |
| Election.RaceHasOneWinner | chain/pallets/archipel/src/lib.rs:123-142 | Of any takes built from one snapshot, in any order and mixed with other transactions, exactly the first succeeds and its sender leads in the end |
| Election.GroupsDoNotInterfere | chain/pallets/archipel/src/lib.rs:122-165 | The leader state of a group after any run is that after the subsequence touching the group |
| AccountIndex.RunNumbers | chain/pallets/archipel/src/lib.rs:98-113 | In every run the storage lists the heartbeat senders in first-heartbeat order and the four per-account maps share one domain |
| AccountIndex.IndexIsBijectionUntilSaturation | chain/pallets/archipel/src/lib.rs:98-113 | The two index maps are mutually inverse if and only if at most 2^32 accounts sent heartbeats, and the count is right if and only if at most 2^32 - 1 did |
| AccountIndex.LatestHeartbeatIsStored | chain/pallets/archipel/src/lib.rs:174-187 | After any run block, group and status of an account are those of its latest heartbeat |
| Heartbeats.HeartbeatStore.AddHeartbeat | orchestrator/src/heartbeats.js:13-27 | Overwrites the entry of the wallet and no other |
| Heartbeats.HeartbeatStore.AnyOneAlive | orchestrator/src/heartbeats.js:30-54 | For any order of the entries and any group, true exactly if this node and some other node have a recent non-zero heartbeat |
| Heartbeats.HeartbeatStore.GetHeartbeat | orchestrator/src/heartbeats.js:77-79 | Answers the entry of the wallet if there is one |
| Heartbeats.AlivenessFades | orchestrator/src/heartbeats.js:37-53 | With a growing best number and no new heartbeat aliveness can only be lost |
| Chain.ChainLink.ChainMovingForward | orchestrator/src/chain.js:229-243 | Refuses exactly when the number is unchanged and has been repeated up to the threshold |
| Chain.ChainLink.CanSendTransactions | orchestrator/src/chain.js:246-287 | True exactly on a connected, moving chain whose finality keeps up and that has peers and is in sync at the first or the second attempt, stated without the order of the checks |
| Chain.GateOpensExactly | orchestrator/src/chain.js:246-287 | The gate opens if and only if the node is connected, the number is new or not repeated up to the threshold, finality is less than the gap behind, and at one of the two attempts there were peers and no synchronization |
| Chain.RepeatsCountsEqualTail | orchestrator/src/chain.js:229-243 | The accumulator is the length of the longest equal tail of all observations |
| Orchestrator.OrchestratorProcess.Boot | orchestrator/src/app.js:17-32 | A started process remembers nothing, has its switches as configured and its service, if any, in passive mode |
| Orchestrator.OrchestratorProcess.FillHeartbeatsFromChain | orchestrator/src/orchestrator.js:74-80 | The loop records one read per configured wallet |
| Orchestrator.OrchestratorProcess.ServiceStart | orchestrator/src/orchestrator.js:375-382 | Sets the mode, except on a node without service |
| Orchestrator.OrchestratorProcess.BecomeLeader | orchestrator/src/orchestrator.js:230-246 | Sends the take naming the given leader if the chain can take it, and reports how it ended |
| Orchestrator.OrchestratorProcess.OtherLeaderAction | orchestrator/src/orchestrator.js:279-321 | Waits, takes over for want of data, or takes over by age, on the node's fields |
| Orchestrator.OrchestratorProcess.LeadershipManagement | orchestrator/src/orchestrator.js:250-276 | Decides between taking an unled group, being leader already and acting on another leader |
| Orchestrator.OrchestratorProcess.ServiceReadinessManagement | orchestrator/src/orchestrator.js:324-362 | Readiness with its grace counter and the heartbeat switch |
| Orchestrator.OrchestratorProcess.OrchestrateOperatorService | orchestrator/src/orchestrator.js:161-227 | One uninterrupted cycle on the node's fields |
| Orchestrator.OrchestratorProcess.ForceActive | orchestrator/src/orchestrator.js:83-118 | One uninterrupted forced activation |
| Orchestrator.OrchestratorProcess.OrchestrateService | orchestrator/src/orchestrator.js:121-158 | Dispatch on role, switch and service mode, an unknown mode raising an error |
| Orchestrator.OrchestratorProcess.OnEvent | orchestrator/src/chain.js:53-71 | Turns passive on someone else's take of the node's group and records heartbeats |
| Orchestrator.OrchestratorProcess.HeartbeatTick | orchestrator/src/app.js:38-46 | Sends a heartbeat with the mode's status only while both switches are on and the chain can take it |
| Takeover.OnlyOperationalLead | orchestrator/src/orchestrator.js:161-206 | A cycle goes on to the leadership exactly if link, aliveness of itself and of another, readiness or grace, and both heartbeat switches allow it; otherwise it ends passive and sends nothing |
| Takeover.SittingLeaderStays | orchestrator/src/orchestrator.js:266-268 | A node whose key is the stored leader sends nothing and ends its cycle active if it may take part, and passive otherwise |
| Takeover.UnledGroupIsAskedFor | orchestrator/src/orchestrator.js:258-263 | Reading that the group has no leader, the node sends a take naming itself if the gate opens again, and ends active, passive or unchanged by its result; else it ends passive |
| Takeover.OthersLeadIsRespected | orchestrator/src/orchestrator.js:271-320 | Reading another leader without grounds or with the gate shut, the node ends passive and sends nothing |
| Takeover.UnreadLeaderIsNotNamed | orchestrator/src/orchestrator.js:279-304 | A led group whose leader could not be read is never asked for |
| Takeover.DepositionIsJustified | orchestrator/src/orchestrator.js:250-321 | With any combination of failed reads, a cycle that deposes a leader has really read it, names it, and has no data after enough checks or a heartbeat older than the alive time; a leader that counts as alive is never deposed |
| Takeover.UnledTakeDeposesNobody | orchestrator/src/orchestrator.js:258-263 | The self-naming take after an unled or failed read is accepted by the pallet exactly in a group without leader |
| Takeover.ActivationNeedsOwnKey | orchestrator/src/orchestrator.js:221-226 | No operation activates the service without a leader read that answered the node's own key |
| Takeover.DeposesExactlyOnGrounds | orchestrator/src/orchestrator.js:279-321 | A contending cycle sends a take, which names the leader read, exactly when it has grounds, and then ends active, passive or unchanged by the result of the take and the recheck |
| Takeover.TakeoverCompletes | orchestrator/src/orchestrator.js:208-226 | A contender whose leader is still in place sends the take, becomes leader and ends the same cycle active if it has grounds, and otherwise sends nothing and ends passive |
| Takeover.ForcedActivationExactly | orchestrator/src/orchestrator.js:83-118 | For all answers: when a forced activation sends, whom it names, and whether it ends active or in the mode before |
| Takeover.ForcedActivationCompletes | orchestrator/src/orchestrator.js:83-118 | With answered reads a forced activation makes the node leader and ends active, sending a take exactly if the node was not leader |
| Takeover.ForcedPassiveStaysPassive | orchestrator/src/orchestrator.js:144-148 | A node configured as passive ends every enabled cycle passive and sends nothing, whatever it might read |
| Takeover.ForcedActiveActivates | orchestrator/src/orchestrator.js:151-155 | A node configured as active whose reads are answered ends its cycle active |
| Takeover.IdleCycles | orchestrator/src/orchestrator.js:125-134 | Without service, disabled or in an unknown mode a cycle changes and sends nothing, and only the last is an error |
| Runs.NoDataArithmetic | orchestrator/src/orchestrator.js:284-304 | Over any run with replies, events and requests interleaved, from any counter: counter and number of no-data takeovers are remainder and quotient of the no-data checks by threshold + 1 |
| Runs.SilentLeaderIsReplaced | orchestrator/src/orchestrator.js:307-320 | First half of failover: a comparison asks for the place of a silent leader exactly when the best number has passed heartbeat + aliveTime, hence at the latest after max(0, heartbeat + aliveTime + 1 - best) further comparisons |
| Runs.UnknownLeaderIsReplaced | orchestrator/src/orchestrator.js:284-304 | First half of failover: without data, from any counter that earlier leaders have left, exactly the lookups that complete a round of threshold + 1 ask for the leader's place |
| Runs.AskedIsSent | orchestrator/src/orchestrator.js:230-246 | What a task has asked for is what it sends at its next reply, exactly if the link allows it then, whatever came in between |
| Runs.SilentLeaderIsDeposed | orchestrator/src/orchestrator.js:307-320 | A cycle that compares and then finds its gate open sends the take naming the silent leader exactly when the limit has passed, hence at the latest after max(0, heartbeat + aliveTime + 1 - best) further comparisons |
| Runs.UnknownLeaderIsDeposed | orchestrator/src/orchestrator.js:284-304 | A cycle that looks up and then finds its gate open sends the take naming the unknown leader exactly when it completes a round of threshold + 1 lookups |
| Safeguards.CounterIsNotReadyRow | orchestrator/src/orchestrator.js:324-362 | In every interleaved run the counter below the threshold is exactly the number of latest findings in a row of an active service not ready, and at the threshold there are at least as many |
| Safeguards.GraceIsExact | orchestrator/src/orchestrator.js:324-362 | Heartbeats are switched off if and only if the active service is found not ready and so it was at the latest threshold findings before, ending the cycle passive, and come on again only by a ready answer or a restart |
| Safeguards.ReenabledExactlyWhenReady | orchestrator/src/orchestrator.js:350-355 | Heartbeats come on again exactly in a cycle that gets to ask for readiness and finds it |
| Safeguards.SilentIsNotActive | orchestrator/src/orchestrator.js:192-206 | Without forced activations a node with heartbeats off is not active at any moment of an interleaved run |
| Safeguards.SilencedForGood | orchestrator/src/orchestrator.js:182-199 | Once its own heartbeat is too old and none waits for its gate such a node stays that way, asks for no leadership and sends no heartbeat |
| Safeguards.StalledChainForcesPassive | orchestrator/src/orchestrator.js:164-171 | On an unchanged best number the link counts as stalled exactly from the observation that reaches the threshold; from then on every cycle ends passive and no take or heartbeat is sent |
| Safeguards.HaltedFinalityForcesPassive | orchestrator/src/chain.js:259-265 | While finality halts and the best number grows with each cycle, every cycle from number max(0, finalized + gap - best) on ends passive at its first check |
| Steady.LeaderStaysActive | orchestrator/src/orchestrator.js:208-226 | An active leader that nobody disputes and whose service is ready or in its grace period stays active at every moment of an interleaved run |
| Steady.GraceLasts | orchestrator/src/orchestrator.js:324-347 | From any counter, the first not-ready answers up to the threshold let the cycle of an active leader go on, and the next one ends it passive with heartbeats off |
| Steady.IsolatedNodeStops | orchestrator/src/chain.js:268-286 | While no check of the link reaches peers and a synchronized node, every check stops the take, the heartbeat or the cycle it was made for |
| Steady.IsolatedNodeStaysPassive | orchestrator/src/chain.js:268-286 | Meanwhile a node that is not active does not become active and asks for no leadership |
| Steady.ForcedPassiveNeverLeads | orchestrator/src/orchestrator.js:144-148 | Without requested activations a node configured as passive is never active and asks for no leadership, in every interleaved run |
| Tasks.TaskIsCycle | orchestrator/src/orchestrator.js:121-227 | The cycle cut at its awaits, run without interruption, does and sends exactly what the whole cycle does, in every service mode |
| Tasks.TaskIsForceActive | orchestrator/src/orchestrator.js:83-118 | The same for a forced activation |
| Tasks.TaskIsHeartbeat | orchestrator/src/app.js:38-46 | The heartbeat cut at its gate, run without interruption, does and sends what the whole heartbeat does |
| Federation.StepGrowsLog | chain/pallets/archipel/src/lib.rs:120-191 | No step of the federation changes past events or deposits more than one |
| Members.MemberIsProcess | orchestrator/src/app.js:34-62 | Every member of every run of the federation goes through a run of one node, so the theorems on such runs hold of it |
| Members.SilentMemberIsNotActive | orchestrator/src/orchestrator.js:192-206 | In every state of a federation run without forced activations of it, an orchestrated node with heartbeats off is not active |
| Members.SilentLeaderIsDeposedInRun | orchestrator/src/orchestrator.js:230-246 | In the federation, from that comparison on and with an open gate, the pool holds the member's take that names the silent leader |
| Members.UnknownLeaderIsDeposedInRun | orchestrator/src/orchestrator.js:284-304 | The same for a leader without data, in every round of threshold + 1 lookups |
| Members.PooledTakeSucceeds | chain/pallets/archipel/src/lib.rs:126-135 | Such a take makes the member leader if the leader it names still leads when it lands, and changes no leader if another leads |
| Standing.NamedLeaderStaysActive | orchestrator/src/orchestrator.js:208-226 | In the federation, the active leader stays active in every later state while the chain goes on naming it and nothing hinders it, whatever the others do |
| Standing.SendsThroughFitLink | orchestrator/src/chain.js:76-79 | Whatever a member sends, it sends with a check that finds the chain fit |
| Standing.CutOffMemberSendsNothing | orchestrator/src/chain.js:268-286 | While a member reaches no peers or is synchronizing, nothing of it enters the pool |
| Standing.PassiveMemberTakesNothing | orchestrator/src/orchestrator.js:144-148 | A member configured as passive is not active, has no task and sends no take in any run without requested activations of it |
| Status.HeartbeatShowsMode | orchestrator/src/utils.js:32-40 | A heartbeat is sent exactly with both switches on and a fit chain, and executed it shows the node's group, mode and block on chain |
| Status.LandedHeartbeatShowsMode | orchestrator/src/chain.js:74-97 | Every heartbeat that lands in a run shows the mode its sender had when it read its switches, both on |
| Status.CacheShowsChain | orchestrator/src/chain.js:66-70 | A node that has heard everything records the group, status and block that the chain shows, for every account heard of |
| Members.SilencedMemberForGood | orchestrator/src/orchestrator.js:182-199 | With its heartbeats off, its last one too old and none waiting for its gate, on its way or to be heard, a node never sends anything again and never becomes active, whatever the federation does, until restarted or forced |
| Exclusion.ReadShowsTerm | orchestrator/src/orchestrator.js:221-226 | A leader read that answers the node itself shows a term of its own with no rival heard since |
| Exclusion.ActiveIsLatestOrOutdated | orchestrator/src/chain.js:53-64 | In every state of every run an active node is the author of its group's latest NewLeader event or has a rival's still to hear |
| Exclusion.TwoActiveMeansOneOutdated | orchestrator/src/chain.js:53-64 | Two nodes of a group are active together only while one of them has a rival's event still to hear |
| Exclusion.GuardedRunsExclude | orchestrator/src/orchestrator.js:221-246 | If activations wait until all nodes have heard of the term, at most one node per group is active in every state |
| Settling.DisciplineGuards | orchestrator/src/orchestrator.js:233-239 | With timely events and the four rules the wait after a take settles the term before any later activation, by a cycle or forced |
| Settling.TenSecondsExclude | orchestrator/src/orchestrator.js:230-246 | In every state of a run that keeps to the full discipline at most one node per group is active |
| Overlap.ExclusionExactly | orchestrator/src/orchestrator.js:83-118 | A discipline excludes two active nodes in all its runs if and only if it has all four rules and a delay of at most the ten seconds waited after a take |
| Overlap.DisciplinedRunsActivate | orchestrator/src/orchestrator.js:83-118 | Under every discipline there are runs that reach an active node, so the exclusion theorem speaks about something |
| CacheSync.CacheFollowsChain | orchestrator/src/chain.js:66-70 | No cache shows a newer heartbeat than the chain, and a node that has heard everything shows exactly the chain's for every account heard of since subscription |
| CacheSync.CacheNeverGoesBack | orchestrator/src/heartbeats.js:20-26 | Although entries are overwritten unconditionally, a recorded block decreases only at a restart or when the fill reads a wallet that is recorded already |
| CacheSync.RecordsAreSent | orchestrator/src/chain.js:66-70 | In every state of every run a recorded block other than 0 is that of a heartbeat the account has really sent |
| CacheFill.FillRecordsEveryWallet | orchestrator/src/orchestrator.js:74-80 | The fill records for each wallet what was read for its last occurrence |
| CacheFill.FillGoesBackExactly | orchestrator/src/orchestrator.js:74-80 | Over all reads, no read of the fill lowers a record if and only if no wallet is listed twice |
| CacheFill.DistinctFillsNeverGoBack | orchestrator/src/heartbeats.js:13-27 | A node that fills no entry twice between restarts has no record decrease in any step of any run but a restart |
| Leadership.LatestReadIsStorage | orchestrator/src/chain.js:290-307 | Reading leader and led flag at the latest moment reads the two storage items |
| Leadership.LeaderIsConfigured | orchestrator/src/orchestrator.js:121-128 | If only orchestrators take leadership, a group's leader is always a node with a service configured for that group, also when a take lands after its sender was told of a failure or restarted |
| Justice.EveryDepositionHadGrounds | orchestrator/src/orchestrator.js:279-321 | In every interleaved run, a cycle's take that deposes a leader names it and was sent by a task that at an earlier state had read it, with either no record of it and enough checks counted, or a heartbeat that it really sent, the latest heard if any was, and that was older than the alive time when the take was sent |
| Containers.Docker.StartContainer | orchestrator/src/docker.js:136-171 | Runs the container unless it is missing without an image, true exactly if it was not running and now is |
| Containers.Docker.RemoveContainer | orchestrator/src/docker.js:191-205 | Removes the container and tells whether there was one |
| Containers.Docker.IsContainerRunning | orchestrator/src/docker.js:208-219 | True exactly for a container that exists and runs |
| Containers.Polkadot.CheckLaunchedContainer | orchestrator/src/services/polkadot/polkadot.js:322-330 | The mode of the running container, the validator first |
| Containers.Polkadot.PrepareAndStart | orchestrator/src/services/polkadot/polkadot.js:395-426 | Removes the unwanted container, leaves a running wanted one and answers false, and otherwise creates it anew or leaves neither without an image |
| Containers.Polkadot.StartServiceContainer | orchestrator/src/services/polkadot/polkadot.js:429-478 | Changes nothing for an unknown type or if the wanted container runs, otherwise replaces both, true exactly when a container was started |
| Containers.Polkadot.Start | orchestrator/src/services/polkadot/polkadot.js:481-537 | Containers and imported keys after a start, an unknown mode changing nothing |
| Containers.Polkadot.CleanUp | orchestrator/src/services/polkadot/polkadot.js:540-559 | Removes both containers unless a clean-up is under way |
| Containers.Polkadot.ImportKey | orchestrator/src/services/polkadot/polkadot.js:80-144 | Adds a key exactly if it is new and found present |
| Containers.Polkadot.PolkadotKeysImport | orchestrator/src/services/polkadot/polkadot.js:220-246 | The six imports in order, answering true exactly if fewer than six keys were imported before and no question fails |
| Containers.BreaksExactly | orchestrator/src/services/polkadot/polkadot.js:80-144 | A question ends the import if and only if it fails for some key neither imported before nor found present at an earlier place |
| Containers.Polkadot.IsServiceReadyToStart | orchestrator/src/services/polkadot/polkadot.js:249-319 | Ready in the simulated setting, or healthy with six imported keys |
| Containers.Service.ServiceStart | orchestrator/src/service.js:23-26 | The mode is the one asked for whatever becomes of the containers |
| Containers.StartIsExact | orchestrator/src/services/polkadot/polkadot.js:395-478 | From any store, a start leaves exactly the mode's container if and only if it ran alone already or was not running and has an image |
| Containers.NeverBoth | orchestrator/src/services/polkadot/polkadot.js:395-559 | Over any starts and clean-ups the two containers never exist together, and a start with an image launches its mode |
| Keys.ImportedAreConfirmed | orchestrator/src/services/polkadot/polkadot.js:85-143 | The imported list repeats no key and holds only configured keys found present |
| Keys.SixImportedAreAll | orchestrator/src/services/polkadot/polkadot.js:307-311 | Six imported keys mean that all six configured keys differ and were found present |
| Keys.ReadyExactlyForDistinctKeys | orchestrator/src/services/polkadot/polkadot.js:307-311 | The key count of the readiness test can be reached by some attempts if and only if the six configured keys are different |
| ConfigLists.SplitJoin | orchestrator/src/utils.js:76-80 | Splitting a joined list of comma-free elements gives the list back |
| ConfigLists.DropLastJoins | cli/src/service.js:88-96 | Printing a comma after each element and cutting the last one off joins the list |
| ConfigLists.PeersRoundTrip | orchestrator/src/utils.js:72-81 | The printed peers list becomes one option per peer in order, and nothing for no peers, for any port |
| ConfigLists.GenerateArchipelConfig | cli/src/archipel.js:10-33 | Both address lists joined, the chain's reserved peers joined, and the seed and node id of its position for each node |
| ConfigLists.PrintPeers | cli/src/archipel.js:23-25 | The reduce over the node ids prints the joined list of peer addresses |
| ConfigLists.OptionsExactly | orchestrator/src/utils.js:72-75 | There are options exactly if both an option and a list are given |
| ConfigLists.PeerShowsNode | cli/src/archipel.js:23-25 | The address of a peer shows the number of its node, from 1, and the port |
| ConfigLists.SeedLoadedExactly | orchestrator/src/config.js:72-79 | A seed is found for exactly the numbers from 1 to the number of nodes that have an entry |
| ConfigLists.NameShowsNumber | orchestrator/src/utils.js:97-112 | The name given to a wallet shows its number |
| ConfigLists.WalletsNamedExactly | orchestrator/src/utils.js:97-112 | Wallets are named exactly if there are wallets and there is a name |
| ConfigLists.SeedAndNameAgree | orchestrator/src/config.js:72-82 | For every node number the loaded seed and the wallet named with it come from the same key, and with distinct addresses the lookup finds that name only |

## Left out

- Substrate itself, consensus, forks and finality: one ordered log stands for them.
- Cryptography: accounts and keys are values with equality; deriving them from seeds is not part of this model.
- The HTTP API and the user interface, except forced activation, the passive start and the two switches as steps.
- The HTTP calls for keys and health and the pattern matching on their text: their outcomes are parameters.
- Overlapping service starts: the listener does not await the start it triggers, so containers could be changed by two calls at once; starts are modelled one after the other.
- Nonces: that two transactions of one account with the same nonce exclude each other; either may land here.
- Real time other than the ten seconds: intervals and the five-second retry are steps.
- The names shown with heartbeats, their sorting, logs, volumes, mounts, networks and command line options of the containers.
- The first batch of events of a subscription: the events of the current block delivered again are not modelled; the cache would be set to the block it already has.
- The end of the process when the passive start at boot fails (orchestrator/src/orchestrator.js:64-67): the node simply takes no further steps.
- Losing the connection and subscribing again without a restart: lost events are outside the assumptions.
- Copying files, rendering templates, prompting for and validating configuration: these move text and have no state.
- Roles and group ids of the configuration file: each is the element of a comma-separated list at the node's number, like its seed.
