# kafkaagentswarm: a verified model

`kafkaagentswarm` turns a declared graph of LLM agents into Kafka topics and worker Deployments. There is no
coordinator: every worker reads its own input topic and publishes to the input topics of the nodes that depend on
it. A node with several dependencies waits for one contribution from each, for every correlation ID, and keeps the
partial join in a compacted changelog topic so that a crash loses nothing.

This project models that system in Dafny and proves what its design promises. `dafny verify dfyconfig.toml` checks
everything.

## How the model is laid out

- `Types`: names, payloads, messages.
- `Changelog`: replay of the changelog, compaction, and the start-up loop that reads it with offset gaps.
- `Merge`: flattening a completed join under Go's arbitrary map order.
- `Runner`, `RunnerProofs`, `RunnerTheorems`: one worker as a state machine over durable state (input partitions,
  committed offsets, changelog, attempts and how far each was published) and volatile state (`joins`, marked offsets,
  where each goroutine stands). A `Crash` may come between any two steps, offsets are committed later than they are
  marked, a tombstone may be lost, compaction may run at any time, and a new session starts from the committed offset.
  A `SendMessage` that fails is the same send, landed or not, followed by a crash. A straight-through worker may have
  several processes: any of its partitions may be taken away in mid-message, because the process that had it died or
  was dropped from the group, while the others go on; and what became of the abandoned goroutine is left wide open: it
  may run the agent on any message of the partition, and any attempt may go on landing.
- `Handler`: the worker's code as a class. Every method is proved to move the state machine only along its steps, so
  what is proved of all runs holds of this code.
- `Agent`, `Answers`, `Envelopes`: the LLM and tool loop, recovery of JSON from prose, and the wire format.
- `Wiring`, `Environment`, `Reconciler`, `Deployed`: the compiler from `dependsOn` lists to topics, output lists and
  environment strings, its failures and retries, and the way back from the strings to each worker's configuration.
- `Swarm`, `SwarmTheorems`, `DataFlow`, `ExactlyOnce`, `ExactlyOnceSwarm`, `Settling`: all workers composed over that
  wiring, and end-to-end properties of every interleaving. Cyclic graphs are covered as well: "the nodes that fire" is
  stated as a least closed set, which on an acyclic graph is what induction along the edges would give.
- `Levels`, `Convergence`: the least closure built in stages, and why every run settles once nothing more fails.
- `Replica`: several processes of one worker, harmless for a straight-through node and not for a fan-in node.

## Premises the code does not enforce

- All messages of one correlation ID are in one partition of a fan-in node's topic. The runner keys its sends that way
  (cmd/runner/handler.go:154-158); writers outside the swarm must do the same.
- Node names are unique, `dependsOn` has no duplicates, and the configuration does not change between restarts. With a
  duplicate in `dependsOn` a fan-in node never publishes anything (`RunnerTheorems.DuplicatesNeverComplete`).
- A fan-in node has one live process since its hydration, because hydration runs once (cmd/runner/main.go:114) and
  `Setup` does nothing on a rebalance (cmd/runner/handler.go:23). `Replica.SecondReplicaLosesContribution` is a
  concrete run with two processes in which a contribution is lost. Straight-through workers may have any number of
  processes. A process that has lost a partition can no longer commit for it: the group rejects its generation.
- A fan-in process begins a new session only when the goroutines of the old one have returned, as its consumer-group
  client makes it wait.
- Outside writers reach roots only; what a HumanInTheLoop gate releases is written by the outside in the gate's name.
- A raw outside message is taken for the same envelope each time it is delivered. `Envelopes.RedeliveryIsStable` says
  exactly when that is so; a payload without any ID gets a new random one at every delivery.
- The JSON codec is a parameter. The laws used are: decoding an encoded envelope gives it back, an encoded envelope is
  an object with its ID under `correlation_id`, and a trimmed text that decodes to an object is `null` or runs from
  `{` to `}`.
- The values of a container's environment hold no `$(` and no `$$`, which Kubernetes would expand or shorten before
  the worker sees them; nothing rejects such a node name (`Deployed.RunnerSeesWiring` is about the values as written).
- The partition a changelog record goes to depends only on its key, and the record just below the end of a partition
  is retained when hydration starts.

## Where the code differs from its own description

- cmd/runner/agent.go:264-267 says an answer without a JSON object is kept under "result". The bare word `null` decodes
  as an object without fields, so that answer is dropped (`Answers.NullAnswerIsDropped`), and in an earlier fence it
  hides the object that follows (`Answers.NullFenceHidesObject`). `Answers.TextIsKept` is exact: the text of an answer
  without an object is kept if and only if it is not empty, not a bare `null`, and does not open its first fence on one.
- internal/controller/agentswarm_controller.go:148 decides on a join by counting `dependsOn` entries, while the runner
  counts the pieces of the joined string; nothing validates the entries. `Environment.FanInAgreement` is exact: the two
  agree if and only if a single entry has at most one comma-separated part that is not blank, and several entries have
  at least two between them. A name with a comma can make the runner join without a join-state topic
  (`Environment.MalformedNameSplitsFanIn`), a blank name can make it pass messages straight through although a topic
  was made (`Environment.BlankNameHidesFanIn`), and a trailing comma does no harm (`Environment.TrailingCommaIsHarmless`).
- The changelog reader skips a record it cannot decode (cmd/runner/join.go:143-147), while compaction counts it as the
  newest of its key; together they can lose a join (`Changelog.CompactionLosesUnderUnreadable`).

## Model

| member | source | states |
|---|---|---|
| RunnerProofs.StepKeeps | cmd/runner/handler.go:26-136 | every enabled step of one worker (delivery, join, mark, agent, each publish, tombstone, commit, session restart, a partition taken away in mid-message, an abandoned goroutine running or publishing, crash, restart, recovery, compaction) keeps the protocol's invariant |
| RunnerProofs.RewindKeeps | cmd/runner/handler.go:23-31 | starting a partition again from its committed offset, for a straight-through worker even in mid-message, keeps the invariant |
| RunnerProofs.StrayLandKeeps | cmd/runner/handler.go:153-161 | so does a publish by a goroutine that no longer has its partition |
| RunnerProofs.JoinKeeps | cmd/runner/handler.go:82-107 | recording a contribution in memory and changelog together keeps memory equal to the changelog's replay and loses nothing below the mark |
| RunnerProofs.MarkJoinedKeeps | cmd/runner/handler.go:52-58 | marking a fan-in offset before the agent runs is safe because the contribution is already durable |
| RunnerProofs.FinishKeeps | cmd/runner/handler.go:126-131 | dropping the in-memory join after the last publish leaves the changelog entry accounted for by a complete attempt |
| RunnerProofs.BuryKeeps | cmd/runner/join.go:53-66 | the tombstone, landed or lost, never removes an unpublished contribution |
| RunnerProofs.CrashKeeps | cmd/runner/handler.go:34-39 | losing all volatile state at any point keeps the invariant |
| RunnerProofs.RestartKeeps | cmd/runner/main.go:108-124 | a new process that hydrates first keeps the invariant |
| RunnerTheorems.RunKeeps | cmd/runner/handler.go:26-136 | the invariant holds at every point of every run |
| RunnerTheorems.NoLostContribution | cmd/runner/handler.go:67-81 | every fan-in message below the marked offset is still in the replayed changelog under its source, or was merged into a result that reached every output topic in an attempt begun at or after its recording |
| RunnerTheorems.JoinByCounting | cmd/runner/handler.go:95-107 | although only sizes are compared, every attempt, live or in recovery, was made on contributions from exactly the set `dependsOn`, each of them a message that source really sent for that ID |
| RunnerTheorems.CountIsWhole | cmd/runner/main.go:129-134 | a join of genuine contributions that is at least as large as `dependsOn` is exactly `dependsOn` |
| RunnerTheorems.MemoryAgreesWithChangelog | cmd/runner/handler.go:90-107 | when idle, each in-memory join equals the changelog's value and holds more than zero and fewer than n sources; a key only the changelog holds is a whole join already published to every topic |
| RunnerTheorems.NeverMarkedEarly | cmd/runner/handler.go:41-62 | a straight-through node, with any number of processes, marks an offset only after an attempt made on that very offset, with that message's ID and data, reached every output topic, in order |
| RunnerTheorems.AttemptsReachPrefixes | cmd/runner/handler.go:142-163 | every attempt, interrupted or not, reached a prefix of the topic list and kept every field of its input |
| RunnerTheorems.DuplicatesNeverComplete | cmd/runner/handler.go:101-105 | a fan-in node whose `dependsOn` names a node twice never reaches its count: in no run does it begin an attempt |
| RunnerTheorems.RecordingStores | cmd/runner/handler.go:90-99 | right after a contribution is recorded, the changelog replays to that very message's data under its source, whatever the source had contributed before |
| RunnerTheorems.LatestContributionCounts | cmd/runner/handler.go:95-99 | from then until the same source is recorded again for the same ID, through crashes, recoveries and compaction, the changelog holds that data for it or nothing |
| RunnerTheorems.TombstoneDeletes | cmd/runner/join.go:53-66 | a tombstone that lands removes exactly the published join from what the next process hydrates |
| RunnerTheorems.CommitSurvives | cmd/runner/handler.go:41-62 | what was marked when the group committed is not delivered again after a crash or a new session, and everything past the committed offset is |
| Changelog.ReplayIsLastWrite | cmd/runner/join.go:137-149 | replay maps a key to a join if and only if that is what the key's last readable record says |
| Changelog.DropPreservesReplay | cmd/runner/join.go:98-102 | on any log, removing one record leaves hydration's result unchanged if and only if a later readable record of its key follows or the record changed nothing when applied |
| Changelog.CompactionStep | cmd/runner/join.go:98-102 | a cleaner step on well-formed records changes nothing that hydration rebuilds |
| Changelog.CompactionRun | cmd/runner/join.go:98-102 | nor does any sequence of cleaner steps |
| Changelog.CompactionLosesUnderUnreadable | cmd/runner/join.go:143-147 | witness: with an unreadable record on top, compaction loses a join |
| Changelog.HydratePartition | cmd/runner/join.go:108-135 | applies a prefix of the retained records in order and once each, ending with the first whose offset reaches the end, or blocks past the last one exactly when none does; on increasing offsets it applies precisely the records below the end if and only if the last one is retained |
| Changelog.HydrateJoinState | cmd/runner/join.go:68-106 | for every keyed log that the partitions hold, in whatever order they are listed, returns the replay of the whole log; fails to finish exactly when some listed partition has lost its last records |
| Changelog.HydrationIsOrderIndependent | cmd/runner/join.go:98-102 | for every partition order the result is the replay of the whole log |
| Changelog.PartitionCompaction | cmd/runner/join.go:98-135 | a cleaner step on one partition's stored records, offsets and all, leaves hydration's result unchanged in every partition order, and leaves hydration able to end if and only if it did not remove the newest record |
| Merge.MergeJoinedData | cmd/runner/join.go:19-34 | the nested loops compute the fold over some order of the sources |
| Merge.MergeContents | cmd/runner/join.go:19-34 | in every order each source name holds that source's whole payload, the keys are exactly the sources and the payload keys, and every other value comes from a source that has that key |
| Merge.MergeOrderIndependence | cmd/runner/join.go:23-34 | the result is the same in every order if and only if the sources agree on every shared key that is not a source name |
| Replica.SecondReplicaLosesContribution | cmd/runner/handler.go:23-24 | witness: a second process hydrated earlier overwrites a partial join, all offsets are committed, and the join is never published |
| Replica.SiblingsGoOn | cmd/runner/handler.go:23-31 | a process of a straight-through worker that loses a partition in mid-publish leaves its siblings as they stand, its partition to be taken up again from the committed offset, and its attempt free to go on landing |
| Handler.ReachesKeeps | cmd/runner/handler.go:26-163 | every state the class can reach from a good one is within the invariant |
| Handler.Broker.SendRecord | cmd/runner/join.go:45-49 | an acknowledged send appends one record; a failed one appends it or nothing |
| Handler.AgentHandler.Join | cmd/runner/handler.go:82-108 | refines the join step; afterwards the source's part of this ID's join is this message's data, whatever it was, and no other part, ID or committed offset has changed; reports ready exactly when the count is reached, with a merge of the recorded contributions |
| Handler.AgentHandler.WriteJoinState | cmd/runner/join.go:36-51 | memory and changelog take the contribution together, the latest one replacing an earlier one of the same source; or the process is down, with the record landed or not and nothing else changed |
| Handler.AgentHandler.AgentLoop | cmd/runner/handler.go:114-120 | succeeds exactly if the model finishes on this task within the cap, and then yields its final reply folded into the data |
| Handler.AgentHandler.AnswerAndPublish | cmd/runner/handler.go:114-124 | what is sent to every topic, or on failure to a prefix of them, is what the agent answered to this input |
| Handler.AgentHandler.Publish | cmd/runner/handler.go:142-163 | success means one new copy of the envelope in every output topic; failure means in exactly a prefix of them; refines the publish steps |
| Handler.AgentHandler.CompleteCorrelation | cmd/runner/handler.go:114-136 | success adds one attempt whose result is the agent's answer to this input and reached every topic, forgets exactly that join, and hands exactly that key's tombstone to the producer; even a failure has published nothing but the agent's answer; refines the steps |
| Handler.AgentHandler.HandleMessage | cmd/runner/handler.go:27-63 | one turn of the loop refines the steps; alive afterwards means the offset advanced by one and, exactly when the join is complete or none is needed, one result for this ID, the agent's answer to the join or the message, was sent to every topic and no join is left; otherwise only the contribution was recorded; fatal means the process is down |
| Handler.AgentHandler.JoinAndMark | cmd/runner/handler.go:28-55 | a fan-in message is marked once its contribution is durable, complete or not; a straight-through one is not marked yet |
| Handler.AgentHandler.CompleteAndMark | cmd/runner/handler.go:57-62 | one complete attempt sent to every topic, and only a straight-through message is marked, after that |
| Handler.AgentHandler.ConsumeClaim | cmd/runner/handler.go:26-65 | works through everything in a partition, in order, each message as HandleMessage says and nothing else sent in between, or dies on the way |
| Handler.AgentHandler.RecoverOne | cmd/runner/main.go:129-135 | a hydrated join whose count is reached gets one attempt on a merge of exactly that join, the agent's answer to it sent once to every topic; any other is left alone and nothing is sent |
| Handler.AgentHandler.RecoverAll | cmd/runner/main.go:129-135 | in any map order, the full joins and no others are completed, by one attempt each, and every output topic gets each of those results once |
| Handler.AgentHandler.Boot | cmd/runner/main.go:108-151 | hydrates from the partitions, in the order listed, the replay of the changelog; then completes and publishes exactly the joins that were already full; then consumes with the rest in memory |
| Swarm.WorldRunKeeps | internal/controller/agentswarm_controller.go:106-139 | in every run of the swarm all workers keep their invariant, every log entry came from a dependency or from outside, and a claimed publish is in the log of its target |
| SwarmTheorems.AtLeastOnce | cmd/runner/handler.go:26-136 | however a run went, once all workers are up and idle with their input marked, a worker that heard from all its dependencies about c has published a complete result for c |
| SwarmTheorems.NothingElseCompletes | cmd/runner/handler.go:82-107 | at every point of every run, only nodes in the closure of what entered for c ever work on c |
| SwarmTheorems.CompletedIsLeastClosure | internal/controller/agentswarm_controller.go:111-139 | at rest, the workers that completed c are exactly the least set closed under "all of its dependencies did their part" |
| DataFlow.CorrelationIdsAreConserved | cmd/runner/handler.go:142-158 | every message anywhere in the swarm carries a correlation ID that entered from outside |
| DataFlow.FieldsSurvive | cmd/runner/agent.go:268-278 | along any path of workers from a root, every field of the root's payloads for c is in the input and output of every attempt on c, whatever the agents answer |
| ExactlyOnce.CalmStepOnce | cmd/runner/handler.go:26-63 | without crashes and redeliveries a worker makes at most one attempt per correlation ID |
| ExactlyOnce.NeverStuck | cmd/runner/handler.go:26-63 | a worker that is not at rest always has an enabled step of its own |
| ExactlyOnceSwarm.AtMostOnce | cmd/runner/handler.go:82-163 | in a failure-free run where c enters each root once, no node makes two attempts on c and the messages consumed for c are at most the roots entered plus the edges |
| ExactlyOnceSwarm.ExactlyOnceAtRest | internal/controller/agentswarm_controller.go:111-139 | at rest after a failure-free run, the nodes that fired are the least closure, each with exactly one attempt and that one complete |
| Settling.StepPays | cmd/runner/handler.go:26-163 | in a failure-free run every step a worker takes of its own accord uses up work opened by a message it took: at most five steps and one per output topic for each message, and two to start up |
| Settling.SwarmCanMove | cmd/runner/handler.go:26-63 | a swarm that is not at rest, whatever happened before, has a worker with an enabled step of its own |
| Settling.CalmRunEnds | cmd/runner/handler.go:26-163 | if every ID enters each root once, every failure-free interleaving takes at most as many messages as injections plus, for each ID, the edges, and its workers make at most a fixed number of steps in all |
| Settling.CalmRunSettles | cmd/runner/handler.go:26-163 | every failure-free run extends, with nothing more entering, to a failure-free run that is at rest |
| Settling.ExhaustedRunIsExact | internal/controller/agentswarm_controller.go:111-139 | a failure-free run in which no worker can move is at rest, and has fired exactly the least closure, each node once and completely |
| Levels.ReachIsLeast | internal/controller/agentswarm_controller.go:111-139 | the least closure of what entered for an ID always exists, and as many stages as there are nodes build it, cyclic graphs included |
| Levels.LevelRises | internal/controller/agentswarm_controller.go:111-139 | whoever waits for a reached node is reached at a later stage, if at all |
| Convergence.SteadyStepCosts | cmd/runner/handler.go:26-136 | from any state within the invariant, every step of work other than a publish uses up some of a worker's remaining work: pending messages, work in hand, unsent outputs and joins waiting for recovery |
| Convergence.SteadyEventUses | cmd/runner/handler.go:142-163 | a publish gives up more than the message it delivers can still cause, so every step of the swarm uses up remaining work |
| Convergence.EveryContinuationEnds | cmd/runner/handler.go:26-163 | from every reachable state, whatever crashes, lost partitions and redeliveries led to it, and on any graph: without further failures and injections only a bounded number of steps of work is possible |
| Convergence.EveryRunSettles | cmd/runner/main.go:108-151 | every run, crashes and all, extends by the workers' own steps to one at rest, where the workers that completed c are exactly the least closure of what entered |
| Convergence.ExhaustedRunIsComplete | cmd/runner/handler.go:26-163 | any run in which no worker can move any more is at rest and complete in that sense |
| Wiring.InputTopics | internal/controller/agentswarm_controller.go:106-109 | maps exactly the declared names to their input topics |
| Wiring.DownstreamOf | internal/controller/agentswarm_controller.go:111-116 | the nested loops compute, for every name, the list the transpose theorems are about |
| Wiring.NamesAreDistinct | internal/controller/agentswarm_controller.go:106-155 | in one swarm, input topics, join-state topics and deployments of different nodes differ, and no input topic is a join-state topic |
| Wiring.SwarmsAreDistinct | internal/controller/agentswarm_controller.go:106-109 | a node of the same name in two swarms has its own topics and deployment in each |
| Wiring.SwarmsCanMeet | internal/controller/agentswarm_controller.go:199-199 | witness: names are glued with a dash they may contain, so different nodes of two swarms can share a deployment and topics |
| Wiring.TransposeMultiplicity | internal/controller/agentswarm_controller.go:111-116 | v occurs in u's outputs as often as u occurs in v's `dependsOn` |
| Wiring.OutputsAreDependents | internal/controller/agentswarm_controller.go:111-139 | without duplicates, u's outputs are its dependents in declaration order |
| Wiring.WiringIsTranspose | internal/controller/agentswarm_controller.go:111-139 | v is in u's outputs exactly when u is in v's `dependsOn`, once, and only declared nodes appear |
| Wiring.EdgesAreConserved | internal/controller/agentswarm_controller.go:111-116 | over the declared nodes, output entries number exactly the `dependsOn` entries naming a declared node |
| Environment.SplitCSV | cmd/runner/main.go:65-77 | the loop returns the trimmed, non-empty pieces in order |
| Environment.SplitInvertsJoin | cmd/runner/main.go:65-77 | for all lists, splitting the joined string gives the concatenation of each entry's own pieces |
| Environment.PiecesAreWellFormed | cmd/runner/main.go:71-75 | whatever the string, every piece is non-empty, trimmed and free of commas |
| Environment.ListRoundTrip | internal/controller/agentswarm_controller.go:229-241 | a list survives the environment if and only if every entry is well-formed |
| Environment.SpacesAreSpaces | cmd/runner/main.go:72-72 | the white space that is trimmed, for ASCII exactly: blank, tab, line feed, vertical tab, form feed and carriage return |
| Environment.BlanksAreDropped | cmd/runner/main.go:71-75 | blanks in front of a name do not matter |
| Environment.FanInAgreement | cmd/runner/main.go:65-77 | for all lists: counting entries and counting pieces agree on whether the node joins if and only if a single entry has at most one part that is not blank and several have at least two between them |
| Environment.MalformedNameSplitsFanIn | cmd/runner/main.go:69-75 | witness: one dependency with a comma in its name is read back as two |
| Environment.BlankNameHidesFanIn | cmd/runner/main.go:69-75 | witness: of two dependencies, one with a blank name, one is read back |
| Environment.TrailingCommaIsHarmless | cmd/runner/main.go:69-75 | witness: a comma followed by nothing changes nothing |
| Environment.EncodeMCPEndpoints | internal/controller/agentswarm_controller.go:286-292 | the loop produces the comma-joined list of pairs |
| Environment.DecodeMCPEndpoints | cmd/runner/main.go:40-47 | the loop computes the map that the round-trip theorems are about |
| Environment.EndpointRoundTrip | cmd/runner/main.go:41-47 | well-formed endpoints decode to the map in which the last URL of a name wins and no other name occurs |
| Environment.OneEndpointRoundTrip | cmd/runner/main.go:43-46 | a single endpoint survives if and only if it is well-formed; its URL may contain '=' |
| Reconciler.AgentSwarmReconciler.EnsureTopic | internal/controller/agentswarm_controller.go:180-195 | an existing topic is left alone, a missing one is created; a failed call had the whole effect or none |
| Reconciler.AgentSwarmReconciler.ReconcileDeployment | internal/controller/agentswarm_controller.go:198-214 | creates the deployment, or replaces replicas and template and keeps everything else |
| Reconciler.AgentSwarmReconciler.ReconcileNode | internal/controller/agentswarm_controller.go:119-162 | success carries out the node's operations in order; failure stops after a prefix of them; a gate gets its topic only |
| Reconciler.AgentSwarmReconciler.ReconcileWorker | internal/controller/agentswarm_controller.go:136-161 | the join-state topic, for a node with several dependencies only, comes before the deployment that names it |
| Reconciler.AgentSwarmReconciler.Reconcile | internal/controller/agentswarm_controller.go:70-165 | success carries out every operation of the stored swarm, or none if the swarm is gone; failure leaves the cluster part of the way |
| Reconciler.AgentSwarmReconciler.ReconcileSwarm | internal/controller/agentswarm_controller.go:106-165 | the node loop carries out every node's operations in declaration order, or stops after a prefix |
| Reconciler.DeploymentsAfter | internal/controller/agentswarm_controller.go:198-214 | after any operations, replicas and template come from the last that names the deployment, the rest from whoever created it |
| Reconciler.PartialThenFull | internal/controller/agentswarm_controller.go:119-162 | a full run after a partial one leaves what the full run alone would have left |
| Reconciler.RetriesConverge | internal/controller/agentswarm_controller.go:119-165 | after any number of attempts failing at arbitrary points, one success leaves what a single clean run would have, and a further run changes nothing |
| Reconciler.TopicsArePreserved | internal/controller/agentswarm_controller.go:186-194 | no attempt, finished or not, alters or removes a topic that existed |
| Deployed.ReconciledCluster | internal/controller/agentswarm_controller.go:119-162 | after a success every node has its input topic, a compacted join-state topic was made exactly for workers with several dependencies, every worker has its desired template and replicas, and gates have no deployment of the controller's making |
| Deployed.DeployedWorker | internal/controller/agentswarm_controller.go:198-280 | a worker's deployment has its image, its replicas (one when it asks for none), its labels and secret, and keeps the identity of whoever created it |
| Deployed.TopicsBeforeDeployment | internal/controller/agentswarm_controller.go:119-162 | however far a run got, a worker it deployed or changed finds its input topic and, if it joins, its join-state topic |
| Deployed.LoadConfig | cmd/runner/main.go:40-63 | parses each variable, the API key included, into the configuration the wiring theorems are about |
| Deployed.RunnerSeesWiring | cmd/runner/main.go:49-62 | after a successful reconcile of any cluster, what a worker parses from its environment is the configuration the swarm model gives it (the same dependencies, its dependents' topics in order, a join-state topic exactly when it joins) if and only if its dependencies and its dependents' topics are well-formed names |
| Deployed.RunnerSeesSettings | internal/controller/agentswarm_controller.go:229-249 | from the spec to the process: brokers and tools arrive exactly when their entries are well-formed; instructions, base URL, model and API key always do |
| Deployed.RunnerSeesEndpoints | internal/controller/agentswarm_controller.go:286-292 | well-formed endpoints arrive as the map in which the last URL declared for a name wins |
| Deployed.JoinTopicAgreement | internal/controller/agentswarm_controller.go:148-155 | for any dependencies at all, the worker joins exactly when it was given a join-state topic, if and only if the condition of `Environment.FanInAgreement` holds |
| Deployed.InputTopicIsWellFormed | internal/controller/agentswarm_controller.go:106-109 | an input topic name survives the list if and only if neither name has a comma and the swarm's does not begin with white space |
| Answers.ExtractionIsSound | cmd/runner/agent.go:289-321 | whatever is extracted was parsed from a trimmed contiguous piece of the answer |
| Answers.ExtractionIsComplete | cmd/runner/agent.go:289-321 | an object text without a fence inside, with no '{' before it and no '}' after it, is what comes back, unless the first fenced block is a bare null, which then comes back instead |
| Answers.WrappedAnswerIsFound | cmd/runner/agent.go:280-313 | in particular with any prose and fences free of "null" around it, as long as nothing opens a brace before it or closes one after it |
| Answers.FencelessIsSpan | cmd/runner/agent.go:284-310 | the accepted risk, exactly: in an answer without a fenced block, what is found is the span from the first '{' to the last '}', decoded, or nothing |
| Answers.FencedAnswerIsFound | cmd/runner/agent.go:294-302 | an object between fences, tagged "json" or not, with a line break or not, is what comes back whatever prose and stray braces stand around the block, unless the answer decodes as a whole |
| Answers.WholeAnswerComesFirst | cmd/runner/agent.go:290-292 | an answer that decodes as it stands is taken as it stands, whatever fences its strings hold |
| Answers.NullFenceHidesObject | cmd/runner/agent.go:294-302 | witness: a fenced null before the object yields an empty object |
| Answers.TextIsKept | cmd/runner/agent.go:264-278 | the outgoing data for an answer without an object, exactly: its text under "result" if and only if it is not empty, not a bare null, and its first fence does not hold just that; otherwise the data as it came |
| Answers.NullAnswerIsDropped | cmd/runner/agent.go:264-278 | witness: the answer `null` is not kept |
| Answers.BraceFreeHoldsNoObject | cmd/runner/agent.go:304-310 | an answer without braces is one without an object |
| Answers.MergeFinalAnswer | cmd/runner/agent.go:264-278 | the outgoing keys and values exactly: parsed fields override, otherwise text goes under "result", and every field of the data is kept |
| Agent.AgentLoop | cmd/runner/agent.go:139-189 | for every model and tool behaviour: at most 8 requests, fewer only if a call failed or the model finished; the first is the instructions as system and the task's JSON as user, each later one adds the model's reply as it came and what each of its calls yielded, in order and with its ID; success if and only if the model gives a final reply within the cap, with that reply folded into the data |
| Agent.EveryRequestOpens | cmd/runner/agent.go:159-166 | every request begins with the instructions as system and the task as user |
| Agent.RequestIsWellFormed | cmd/runner/agent.go:159-185 | request t is system, user, then t blocks of one tool-calling reply followed by one tool message per call, in order and with matching IDs |
| Agent.FinishIsUnique | cmd/runner/agent.go:172-175 | there is at most one turn on which the model finishes |
| Envelopes.NewCorrelationID | cmd/runner/envelope.go:38-57 | a text under "correlation_id" wins, then one under "id", then one under any key ending in "_id", then 16 random hex digits; empty texts do not count, and the ID is never empty |
| Envelopes.NewIdsComeFromOrders | cmd/runner/envelope.go:38-57 | the IDs a payload may get are exactly those it gets under some order of its keys |
| Envelopes.ParseOrWrapEnvelope | cmd/runner/envelope.go:25-36 | an envelope with an ID and data is taken as it is; anything else is wrapped without a source, a plain object as the data and anything unreadable as text under "raw"; the ID is never empty |
| Envelopes.EnvelopeRoundTrip | cmd/runner/envelope.go:10-36 | an envelope sent with an ID keeps that ID, and comes back as itself if and only if it holds data |
| Envelopes.TrailKeepsId | cmd/runner/handler.go:148-158 | along a trail of any length no published envelope is wrapped again, and all carry the ID the first message was given |
| Envelopes.RedeliveryIsStable | cmd/runner/envelope.go:25-57 | a raw message is taken for the same envelope on every delivery if and only if it is an envelope, names an ID outright, or has candidates that all agree |

## Left out

- Sarama clients, the internals of group rebalancing, producer retries and broker replication: the model keeps append, partition order, committed offsets, redelivery, and partitions that change hands.
- The HTTP call to the model, the MCP connections and parsing of tool results: replies are arbitrary, so every behaviour is covered.
- toolSpecs, systemPrompt and callToolForAgent texts: the tool list plays no part in the transcript, and tool results are arbitrary strings.
- JSON encoding and decoding, including number precision and invalid UTF-8: only the laws listed above.
- A null payload on the wire: `Envelopes` keeps it apart, while the swarm model treats it as an object without fields, as every later merge does.
- Handler.AgentHandler: the class is one process, whose fatal exit takes the whole node down; that other processes of a straight-through worker go on is covered by the step relation, not by the class.
- Other replicas of a fan-in node and changes of `dependsOn` between restarts: outside the premises, except for the witness in `Replica`.
- Eventual clean-up of every changelog key: a message delivered again after a tombstone opens a new partial join, so it does not hold.
- Fairness of schedulers: `Convergence` shows that a swarm with work left can always move and that only so many moves are possible, not that a given worker is ever scheduled.
- Handler.AgentHandler.ConsumeClaim: one partition's goroutine at a time over the messages present when it starts; interleavings of several goroutines are covered by the step relation and the mutex is not modelled.
- The join-state topic as a switch: the runner skips the tombstone when `JOIN_STATE_TOPIC` is empty (cmd/runner/handler.go:126), modelled as not being a fan-in node; `Deployed.JoinTopicAgreement` says exactly when the two coincide.
- Owner references, labels beyond the template's and namespaces: one opaque identity that updates preserve; the contents of secrets are a parameter.
- Status fields, CRD validation and the manager's set-up: no behaviour of the swarm depends on them.
