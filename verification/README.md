# Verified models of the agent service

This project models the parts of the service whose correctness spans many steps or many threads, and
proves what each promises. The provider, the tools, Identity, the gateway, the clock and the network
are parameters or unconstrained choices, so every theorem ranges over all their behaviours. Code that
updates state step by step is written as classes and methods with loops, and each such method is
proved against a specification whose own properties are lemmas. `dafny verify dfyconfig.toml` checks
everything.

## What each file holds

- `EngineStream.dfy`, `EngineSafety.dfy`, `EngineProgress.dfy`, `EngineFailures.dfy`, `EngineGaps.dfy`,
  `StreamClient.dfy`, `ClientProgress.dfy`: the two stream clients as interleaved steps of a delivery goroutine, any number
  of closers, and a consumer that may stop reading, over a network that drops, repeats and reorders.
  `StreamProtocol.dfy` holds their events.
- `StreamSession.dfy`, `ReplySink.dfy`, `Relay.dfy`: the server session, the layers that close it, the
  single-reply sink, and the consult that relays a stream.
- `Retry.dfy`: error classes, policies, the attempt loop, and what retrying does to a stream.
- `Messages.dfy`, `AgentLoop.dfy`, `AgentTurn.dfy`, `AgentEffects.dfy`, `AgentProcess.dfy`: conversations,
  one turn of the agent as a step function, the properties of whole turns, what turns do told by the
  provider's events and the tools' answers, and the loop itself, which refines the step function.
- `WorkflowGraph.dfy`, `DerivedWorkflow.dfy`, `DerivedPrompts.dfy`, `DerivedConnections.dfy`,
  `DeepMerge.dfy`, `JsonHeap.dfy`, `Json.dfy`: the workflow loader. `DerivedPrompts` is about the prompts
  of a derived workflow; `JsonHeap` shows on heap objects that merging neither changes nor shares its
  inputs.
- `ModelId.dfy`, `ModelFallback.dfy`, `UpdateCycle.dfy`, `AutoUpdate.dfy`: model ids, the model in use and
  its fallback, what a cycle must have asked and tried before it keeps a model, and the update,
  health-check and recovery cycle.
- `QueryScope.dfy`, `AggAllowlist.dfy`, `DocRead.dfy`: the search tool's request rewriting.
- `ChatMemory.dfy`: the keyed table behind chat memory, refining a list of turns.
- `ContentBlocks.dfy`, `ToolDemux.dfy`: reassembly of interleaved content blocks in both stream decoders.
- `IdtCache.dfy`: the token validation cache.
- `JoinedKeys.dfy`, `Text.dfy`, `Wrappers.dfy`: texts joined by a separator, white space and substrings,
  and the option type.

## Where the code does less than one might expect

Each of these is stated as a lemma about when it happens, most with an input that shows it.

- When anyone but the callback may close a stream, an event can be dropped after `done` closes and a
  later one still delivered (`EngineGaps.GapFreeIff`, `StreamClient.GapFreeIff`).
- The plain client can then also send on a closed channel (`StreamClient.PanicFreeIff`).
- A policy that retries on `validation`, or on `timeout` with a per-attempt timeout, restarts a stream
  after it has shown text (`Retry.NeverRestartsIff`). A mid-stream failure is wrapped as a
  non-retryable tool error, which the classifier maps to `validation`.
- A response that calls tools and reports `end_turn` makes the next request illegal
  (`AgentLoop.RequestsWellFormedIff`, `AgentTurn.EndTurnWithToolsBreaks`).
- A turn can store an empty assistant message, which makes the next turn's history illegal
  (`AgentTurn.StoredTurnIsGoodIff`, `AgentTurn.SilentRun`).
- An overlay that adds an object where the base has none keeps its nulls, so the merge differs from
  section 2 of RFC 7396 (`DeepMerge.MergeIsMergePatch`).
- Two overlay entries that add the same new agent, or two base nodes of one id, let prompts escape the
  ownership check (`DerivedPrompts.PromptsNeverInheritedIff`); the later check that ids are distinct
  (`pkg/workflow/engine/loader/schema.go:35`) catches them (`DerivedPrompts.DistinctResultIsSafe`).
- An overlay entry whose config is not an object drops prompts that an earlier entry gave, after the
  ownership check has counted them (`DerivedPrompts.PromptsOwnedIff`,
  `DerivedPrompts.NullConfigDropsPrompts`).
- Connection keys are joined with NUL characters, which ids may contain
  (`DerivedConnections.KeyIsPrivateIff`); memory partitions are joined with `#`
  (`ChatMemory.PartitionIsPrivateIff`).
- A model id whose geo prefix ends with the provider's name does not parse back
  (`ModelId.ParseRoundTrip`). With a gateway the request-time fallback may, after a recovery, be another
  spelling of the release in use (`ModelFallback.FallbackReleaseIff`), and a fallback that was declined
  as a candidate stays the fallback (`ModelFallback.FallbackTrustedIff`).
- The cache's time to live counts from the moment an allow is remembered, not from Identity's answer, so
  an allow can be served for longer than that (`IdtCache.HitAgeIff`, `IdtCache.StaleHit`).

- For the same content the two decoders do not send the same events: an empty piece is an event on the
  Bedrock wire only, reasoning on the gateway's only (`ToolDemux.BedrockShows`, `ToolDemux.GatewayShows`).

## Model

| member | source | states |
|---|---|---|
| EngineSafety.InvHolds | pkg/rsassistant/stream.go:86-148 | in every interleaving, mu and doneOnce are held by at most one thread, done and events close at most once, and what has been handed over is in order |
| EngineSafety.NeverPanics | pkg/rsassistant/stream.go:123-148 | nothing is sent on the closed events channel and no channel closes twice, for any number of closers |
| EngineSafety.HandsOverInOrder | pkg/rsassistant/stream.go:99-133 | before done closes the consumer has exactly the server's events 0..k-1, and at most one made-up error after them; afterwards numbers still strictly increase |
| EngineProgress.InternalStepsRunOut | pkg/rsassistant/stream.go:123-148 | begun threads take only boundedly many steps of their own |
| EngineProgress.SomeThreadMoves | pkg/rsassistant/stream.go:123-148 | once done is closed, as long as a begun thread is not finished, some thread can move |
| EngineProgress.WaitingCloserIsServed | pkg/rsassistant/stream.go:123-148 | a closer waiting for mu is never deadlocked by a delivery blocked on a full buffer |
| EngineProgress.CloseCompletes | pkg/rsassistant/stream.go:136-148 | when nothing can move after done has closed, every thread has finished and the events channel is closed |
| EngineProgress.LosslessDeliversAll | pkg/rsassistant/stream.go:99-121 | without other closers, once every event has arrived in turn, however many repeated, out-of-turn or unreadable messages came in between, every event through the terminator has been delivered and the channel is closed |
| EngineFailures.FailureEndsStream | pkg/rsassistant/stream.go:86-98 | with no other closer, a no-responders notice or a service error taken while the stream is open always ends in the closed stream, whose consumer has read the events handed over so far and then the error with the reply's code |
| EngineFailures.FailureSentEndsStream | pkg/rsassistant/stream.go:86-148 | with any closers the same holds of every run in which done is still open when the error is handed over |
| EngineGaps.GapFreeIff | pkg/rsassistant/stream.go:99-148 | against a complete server stream the consumer gets events 0..k-1 without a gap in every interleaving exactly when nobody but the callback can close; any closer, even with a stream of two events, has a run whose first event is number 1 |
| StreamClient.HandsOverInOrder | pkg/transport/natsstream/client.go:57-86 | before done closes exactly events 0..k-1 have been handed over; afterwards the numbers increase |
| StreamClient.PanicFreeIff | pkg/transport/natsstream/client.go:77-163 | against a complete server stream no interleaving panics exactly when nobody but the callback can close |
| StreamClient.GapFreeIff | pkg/transport/natsstream/client.go:57-86 | and exactly then no interleaving leaves a gap |
| ClientProgress.InternalStepsRunOut | pkg/transport/natsstream/client.go:57-86 | begun threads take only boundedly many steps of their own, unless one panics |
| ClientProgress.SomeThreadMoves | pkg/transport/natsstream/client.go:77-86 | once done is closed, or while the buffer has room, a begun thread leaves some begun thread a step |
| ClientProgress.CloseCompletes | pkg/transport/natsstream/client.go:152-161 | when nothing can move after done has closed, every thread has finished and the events channel is closed, unless a send panicked |
| ClientProgress.LosslessDeliversAll | pkg/transport/natsstream/client.go:57-86 | the same for the plain client, which then does not panic either |
| StreamSession.Session.Terminate | pkg/transport/natsstream/server.go:120-129 | the first terminator wins and is published once; later ones change nothing |
| StreamSession.Session.Do | pkg/transport/natsstream/server.go:95-129 | each call's whole effect, and that a send fails exactly after a terminator |
| StreamSession.WireTrace | pkg/transport/natsstream/server.go:95-155 | for any calls after the start, the wire carries start, the data events, and exactly the first terminator requested, numbered from 0 without gaps |
| StreamSession.ServeStreaming | pkg/workflow/builtin/natschat/trigger.go:203-236 | the session ends in the state the agent's, the executor's and the trigger's calls lead to |
| StreamSession.AgentTerminatorWins | pkg/workflow/engine/executor/executor.go:146-158 | however the outer layers fail afterwards, the client sees start, what the agent sent, and the agent's own close, as a complete event or else an error |
| StreamSession.OuterLayersClose | pkg/workflow/builtin/natschat/trigger.go:224-233 | when the agent closes nothing, its error ends the stream or, without one, the error Emit returned; with neither the stream stays open |
| ReplySink.FirstCloseDecides | pkg/workflow/builtin/natschat/collectsink.go:65-107 | however often it is closed, the sink delivers one result: the first close's, with the attachments sent before it |
| ReplySink.HandleSingle | pkg/workflow/builtin/natschat/trigger.go:243-287 | what the caller is told for every first close: the decoded answer with the attachments sent before it, or the error with its defaults, or a timeout; and without a close the error Emit returned, or a timeout |
| Relay.Relay.Apply | pkg/rsassistant/relay.go:60-121 | the fields always stand for the events applied, and nothing is emitted after a terminator |
| Relay.Consult | pkg/rsassistant/consult.go:36-81 | what is emitted for every event sequence, cancellation point and early channel close |
| Relay.ConsultEnds | pkg/rsassistant/relay.go:60-134 | a consult that is not cancelled ends with exactly one Done or Error, its last call; a cancelled one makes none |
| Relay.RelayedMeans | pkg/rsassistant/relay.go:60-121 | thoughts become status lines, calls tool uses, results results with their error text, attachments data, each kind complete and in order |
| Relay.ResultNamed | pkg/rsassistant/relay.go:81-94 | every result is relayed under the name of the latest call of its id |
| Relay.AnswerShownOnce | pkg/rsassistant/relay.go:68-109 | the text shown is the deltas and attachment links in order; a final text is added only when no delta had any text |
| Relay.LastCallIsOutcome | pkg/rsassistant/relay.go:102-119 | the last call carries the stop reason, or the error's code and message, or a default when both are blank |
| Retry.ParseClasses | pkg/workflow/engine/retry/policy.go:91-111 | accepted exactly when all names are known or one is "all", and what the names mean |
| Retry.ParsePolicy | pkg/workflow/engine/retry/policy.go:24-89 | accepted exactly when every field is in range; the policy has the given values and the defaults |
| Retry.DelaysGrow | pkg/workflow/engine/retry/retry.go:137-152 | no delay before jitter, nor the least that jitter leaves of it, is shorter than any earlier one, and none passes the maximum |
| Retry.DelaysDouble | pkg/workflow/engine/retry/retry.go:137-147 | a fixed delay stays; an exponential one starts at the initial delay and doubles until the maximum caps it |
| Retry.Do | pkg/workflow/engine/retry/retry.go:29-135 | an attempt is followed by another exactly when it failed with an error the policy's class names cover, below the cap, within budget and not cancelled; the verdict and the error, for every outcome of every attempt |
| Retry.ClassDecides | pkg/workflow/engine/retry/classify.go:26-57 | the class of an error is in the policy exactly when the parts of the error, taken in order of precedence, match a name the policy lists |
| Retry.EarlierAttemptsRetried | pkg/workflow/engine/retry/retry.go:47-121 | every attempt but the last failed in a retryable class within budget |
| Retry.StreamAttempt | pkg/workflow/builtin/agent/loop.go:208-257 | one attempt forwards exactly the non-error events, and wraps a failure after the first of them |
| Retry.AttemptFails | pkg/workflow/builtin/agent/loop.go:208-257 | when an attempt fails and with which error, and that after an event was forwarded it says not to retry |
| Retry.NeverRestartsIff | pkg/workflow/builtin/agent/loop.go:229-237 | no attempt starts after one that forwarded an event, for every provider, exactly under the policies described |
| Retry.ConsumerSeesLastAttempt | pkg/workflow/builtin/agent/loop.go:208-257 | under those policies the consumer sees exactly the last attempt's events in order |
| Retry.ForwardAll | pkg/workflow/builtin/agent/loop.go:208-257 | the goroutine hands over what all attempts forward, then an error event exactly when the last attempt failed, with that attempt's error |
| Retry.DefaultPolicies | pkg/workflow/engine/retry/policy.go:24-89 | the default classes are safe without a per-attempt timeout, "all" never is |
| AgentLoop.CollectedMeans | pkg/workflow/builtin/agent/loop.go:280-317 | a response becomes one message with all its text, its calls in order, and no two text blocks side by side |
| AgentEffects.CollectedHas | pkg/workflow/builtin/agent/loop.go:280-317 | the message's calls, stop reason and error are exactly those of the events |
| AgentLoop.StreamedMeans | pkg/workflow/builtin/agent/loop.go:267-318 | apart from thoughts the client is shown exactly the text deltas and tool calls in order, and without surfaced thoughts nothing else |
| AgentEffects.ThoughtsMean | pkg/workflow/builtin/agent/loop.go:267-318 | with surfaced thoughts the client is shown every non-blank line of the reasoning, in order |
| AgentLoop.ToolsShow | pkg/workflow/builtin/agent/loop.go:417-561 | apart from attachments the client sees every known tool's result, in order and as the model sees it |
| AgentLoop.ToolsAnswer | pkg/workflow/builtin/agent/loop.go:415-561 | results answer the calls one for one in order, successful ones are never blank, and the retry cap is kept |
| AgentEffects.ToolsReturn | pkg/workflow/builtin/agent/loop.go:415-561 | every result of a known, uncapped call is the answer of that call's own invocation, with its error flag and its payload, except that a blank success is replaced; each invocation's attachments are sent in order before its result; a batch stops exactly at a failing tool that terminates |
| AgentEffects.ProducedMeans | pkg/workflow/builtin/agent/loop.go:562-572 | the charts added are exactly those the successful results refer to, one per key |
| AgentLoop.CapBoundsFailures | pkg/workflow/builtin/agent/loop.go:428-447 | a log that keeps the cap has at most cap + 1 failures per tool, and no invocation after that |
| AgentLoop.NoChartDropped | pkg/workflow/builtin/agent/loop.go:872-891 | every chart produced is referenced in the answer or its image is appended |
| AgentEffects.PatchKeepsText | pkg/workflow/builtin/agent/loop.go:872-891 | the corrected answer stays in front of the appended images, alone when no chart is missing |
| AgentEffects.MissingMeans | pkg/workflow/builtin/agent/loop.go:742-750 | the charts missing are exactly those referenced that no tool produced, none twice if none is referenced twice |
| AgentLoop.RequestsWellFormedIff | pkg/workflow/builtin/agent/loop.go:330-394 | on a good history every request is well formed exactly when no response followed by another request both called tools and reported end_turn |
| AgentLoop.OpeningIsLegal | pkg/workflow/builtin/agent/loop.go:138-150 | a good history and a user message give a legal first request |
| AgentTurn.TurnInBudget | pkg/workflow/builtin/agent/loop.go:159-182 | nudges within budget, at most one recall, each tool failing at most cap + 1 times, no terminator among the events sent |
| AgentTurn.RecallIsSilent | pkg/workflow/builtin/agent/loop.go:357-413 | from the recall on the client is sent nothing before the close, and the answer is the one on screen with its charts patched |
| AgentEffects.IterationContinues | pkg/workflow/builtin/agent/loop.go:330-413 | when an iteration goes on, why, and what it adds to the conversation |
| AgentEffects.IterationEnds | pkg/workflow/builtin/agent/loop.go:330-413 | an iteration completes the turn exactly when it owes neither a tool result, an answer nor a chart; with which answer, with which failure otherwise, and what it sent |
| AgentEffects.TurnAnswers | pkg/workflow/builtin/agent/loop.go:159-182 | a whole turn that completes ends in such an iteration, with its answer |
| AgentEffects.TurnEnds | pkg/workflow/builtin/agent/loop.go:159-578 | a turn ends as its last iteration does; when none ends it, it fails for want of iterations, having sent what they sent |
| AgentTurn.EndTurnWithToolsBreaks | pkg/workflow/builtin/agent/loop.go:337-355 | a provider for which the second request is not well formed |
| AgentTurn.SilentRun | pkg/workflow/builtin/agent/loop.go:343-412 | a provider that writes nothing ends the turn with an empty message |
| AgentTurn.StoredEmptyIff | pkg/workflow/builtin/agent/loop.go:586-625 | whatever the state, the answer an iteration leaves to memory is empty exactly when its response had no text, no chart was produced, and no recall kept an answer |
| AgentTurn.NextHistory | pkg/workflow/builtin/agent/loop.go:615-646 | a stored turn leaves a good history exactly when its answer is not empty |
| AgentEffects.MemoryKeeps | pkg/workflow/builtin/agent/loop.go:615-646 | memory keeps exactly the texts of a message, and a line for each of its attachments |
| AgentTurn.StoredTurnIsGoodIff | pkg/workflow/builtin/agent/loop.go:586-646 | a whole completed turn, once stored, leaves a good history exactly when its last iteration was not that silent |
| AgentTurn.TurnOnTheWire | pkg/workflow/builtin/agent/loop.go:586-613 | whatever the outer layers add, the client sees start, the turn's events in order and the turn's own close |
| AgentProcess.CollectRound | pkg/workflow/builtin/agent/loop.go:260-318 | the streaming loop collects and shows what the response means, nothing during a recall |
| AgentProcess.RunTools | pkg/workflow/builtin/agent/loop.go:415-561 | the loop over the calls with its failure counts gives each call its own invocation's answer and does what the log-based specification says |
| AgentProcess.UserMessage | pkg/workflow/builtin/agent/loop.go:138-148 | supported attachments come before the text, and the message may follow any good history |
| AgentProcess.Process | pkg/workflow/builtin/agent/loop.go:115-613 | for every history, provider and memory: the calls on the sink are the turn's events and one close, and what is stored |
| WorkflowGraph.TopoOrder | pkg/workflow/engine/loader/validate.go:152-185 | terminates with an order of all nodes, sources first, or fails, exactly when the graph has a directed cycle |
| WorkflowGraph.OrderedMeansAcyclic | pkg/workflow/engine/loader/validate.go:152-185 | no order with sources first exists for a cyclic graph |
| WorkflowGraph.FindCycle | pkg/workflow/engine/loader/validate.go:181-183 | nodes that all wait on one another contain a cycle |
| WorkflowGraph.ValidateConnections | pkg/workflow/engine/loader/validate.go:30-91 | no error is reported exactly when the workflow is well wired |
| WorkflowGraph.CheckPort | pkg/workflow/engine/loader/validate.go:54-91 | which errors an input port gives, for its count, its wiring and each peer's role |
| WorkflowGraph.InitOrder | pkg/workflow/engine/loader/loader.go:137-188 | on a validated workflow every peer is initialised before the node that reads it |
| DeepMerge.MergeIsMergePatch | pkg/workflow/engine/loader/derive.go:36-78 | the merge is MergePatch of section 2 of RFC 7396 exactly when the overlay keeps no null |
| DeepMerge.MergeIdempotent | pkg/workflow/engine/loader/derive.go:36-59 | merging the same overlay again changes nothing, exactly under the same condition |
| DeepMerge.NullFreeOverlay | pkg/workflow/engine/loader/derive.go:36-78 | for a null-free overlay both hold |
| JsonHeap.MergeMaps | pkg/workflow/engine/loader/derive.go:36-59 | the result denotes the merge, the inputs are unchanged, and every map and slice of the result is new |
| JsonHeap.CopyValue | pkg/workflow/engine/loader/derive.go:62-78 | the copy denotes the same value and shares no map or slice |
| DerivedWorkflow.MergeNodes | pkg/workflow/engine/loader/derive.go:151-194 | accepted exactly for good entries whose agents own their prompts; the merged nodes; the overlay loses only its markers |
| DerivedWorkflow.NoMarkerLeft | pkg/workflow/engine/loader/derive.go:151-194 | no merged node carries the removal marker, unless the base did |
| DerivedWorkflow.EnforcePromptOwnership | pkg/workflow/engine/loader/derive.go:255-285 | fails exactly when some agent's prompts are not both given by the overlay |
| DerivedPrompts.PromptsNeverInherited | pkg/workflow/engine/loader/derive.go:151-285 | in an accepted merge in which no new id is added twice and no id the overlay keeps is on two base nodes, no agent has a prompt of the base: each of its prompts is the non-empty text folded from the overlay, or lost to a later overlay config that is no object; never lost when overlay configs are objects |
| DerivedPrompts.PromptsOwnedIff | pkg/workflow/engine/loader/derive.go:151-285 | in such a merge every agent has both prompts exactly when none of them is lost that way |
| DerivedPrompts.NullConfigDropsPrompts | pkg/workflow/engine/loader/derive.go:36-78 | a base agent, an entry with both prompts and an entry with a null config: accepted, and the prompts are gone |
| DerivedPrompts.PromptsNeverInheritedIff | pkg/workflow/engine/loader/derive.go:151-285 | for given ids and removals every agent has the overlay's prompts for every accepted way of filling in the entries with configs that are objects, exactly under that condition on the ids |
| DerivedPrompts.DistinctResultIsSafe | pkg/workflow/engine/loader/derive.go:151-194 | whenever the merged ids are distinct that condition holds, whatever the base |
| DerivedPrompts.DistinctIdsIff | pkg/workflow/engine/loader/derive.go:151-194 | over a base of distinct ids the merged ids are distinct exactly when no new id is added twice |
| DerivedPrompts.DuplicateNewAgentEscapes | pkg/workflow/engine/loader/derive.go:174-193 | an overlay adding one new agent twice, over an empty base, for which the promise fails |
| DerivedConnections.MergeConnections | pkg/workflow/engine/loader/derive.go:199-249 | accepted exactly when no overlay connection dangles; which connections result |
| DerivedConnections.EndpointsExist | pkg/workflow/engine/loader/derive.go:199-249 | every endpoint of the result is a node of the merged document that was not removed |
| DerivedConnections.KeptInOrder | pkg/workflow/engine/loader/derive.go:229-236 | the base connections kept are exactly those that do not dangle, in the base's order |
| DerivedConnections.OverlayAddsOnce | pkg/workflow/engine/loader/derive.go:229-248 | the kept connections come first, and no overlay connection repeats an earlier one |
| DerivedConnections.KeyIsPrivateIff | pkg/workflow/engine/loader/derive.go:205-213 | a connection shares its key with no connection of other endpoints or ports exactly when none of its four parts holds a NUL |
| DerivedConnections.NulConfusesKeys | pkg/workflow/engine/loader/derive.go:205-213 | two different connections with one key |
| ModelId.ParseRoundTrip | pkg/workflow/builtin/bedrock/autoupdate.go:49-85 | an id with any date and version tag parses to its own prefix, family and version, exactly when its prefix does not end with the provider's name |
| ModelId.RankIsOrder | pkg/workflow/builtin/bedrock/autoupdate.go:87-93 | the version order is the order of one number below 10,000 |
| ModelId.SameModelIsEquivalence | pkg/workflow/builtin/bedrock/autoupdate.go:112-122 | sameModel is an equivalence |
| ModelId.SpellingsOfOneRelease | pkg/workflow/builtin/bedrock/autoupdate.go:112-122 | bare, dated and tagged spellings of a release are the same model |
| ModelId.LatestCandidate | pkg/workflow/builtin/bedrock/autoupdate.go:95-110 | a greatest strictly newer id of the same prefix and family, or none when there is none |
| ModelId.LatestIgnoresOrder | pkg/workflow/builtin/bedrock/autoupdate.go:95-110 | any order of the list gives the same release |
| ModelFallback.FallbackIsLastDisplaced | pkg/workflow/builtin/bedrock/factory.go:126-147 | after any sequence of swaps and recoveries the fallback is the model displaced by the last upgrade, or none when that has been in use again since or there was no upgrade; it is never the model in use |
| ModelFallback.FallbackReleaseIff | pkg/workflow/builtin/bedrock/factory.go:126-147 | over all sequences of promotions the updater may make, the fallback is never the release in use exactly when there is no gateway |
| ModelFallback.RecoveredToItsOwnFallback | pkg/workflow/builtin/bedrock/factory.go:137-147 | with a gateway, an upgrade and a recovery after which the fallback is the release in use, spelled differently |
| AutoUpdate.AutoUpdater.TryUpgrade | pkg/workflow/builtin/bedrock/autoupdate.go:448-487 | keeps the invariants; a candidate whose probe passes is in use afterwards, one is declined exactly after three failed probes, and a broken model never becomes the fallback |
| AutoUpdate.AutoUpdater.ResolveAndUpgrade | pkg/workflow/builtin/bedrock/autoupdate.go:248-309 | the model is kept only when it does not parse, the cycle was cancelled, the gateway confirmed it, or what the gateway named failed three probes and the catalog could not be listed, has nothing newer, or its latest failed three probes; a promotion is of what the gateway or else the catalog names |
| AutoUpdate.AutoUpdater.Recover | pkg/workflow/builtin/bedrock/autoupdate.go:353-435 | replaces a broken model by the release the gateway or else the catalog names, after it passed a probe; gives up only when neither names one or it failed three probes; the broken model is never the fallback |
| AutoUpdate.AutoUpdater.HealthCheck | pkg/workflow/builtin/bedrock/autoupdate.go:311-351 | the model is newly marked, or a recovery started, only after a check whose last probe indicted it, and such a check always does one or the other; no recovery after a decline; a pass clears the mark |
| AutoUpdate.AutoUpdater.RunOnce | pkg/workflow/builtin/bedrock/autoupdate.go:225-246 | a cycle that is not cancelled keeps the model only after a search in vain, then checks it, and keeps a model found broken only after a search for a replacement in vain or a candidate rejected before; every model that passed a probe is the model in use; at most nine probes and one promotion; the invariants hold, and without a gateway the fallback is an older release that its last probe did not indict |
| AutoUpdate.Run | pkg/workflow/builtin/bedrock/autoupdate.go:521-540 | over any number of cycles the family never changes; without a gateway the prefix is fixed, the version strictly grows, at most 9,999 promotions happen, and the fallback is strictly older, so never the release in use, and not indicted by its last probe |
| ModelFallback.FallbackStaysOlder | pkg/workflow/builtin/bedrock/factory.go:126-147 | after every sequence of promotions made without a gateway the fallback is a strictly older release of the same prefix and family |
| ModelFallback.FallbackTrustedIff | pkg/workflow/builtin/bedrock/autoupdate.go:248-309 | over all sequences of probes and promotions the updater may make, the fallback's last probe never indicted it exactly when there is no gateway, which may name the fallback as a candidate |
| QueryScope.NormalizeClauseList | pkg/workflow/builtin/opensearch/tool.go:160-183 | which shapes are accepted, and that no clause is dropped |
| QueryScope.BuildFinalQuery | pkg/workflow/builtin/opensearch/tool.go:185-203 | the three clause lists of the query, the policy's clauses joined to must |
| QueryScope.FinalQueryMeans | pkg/workflow/builtin/opensearch/tool.go:185-203 | whatever clauses mean, the query matches exactly the documents the model asked for that satisfy the policy |
| QueryScope.Invoke | pkg/workflow/builtin/opensearch/tool.go:18-107 | a request goes out exactly when every guard passes, and otherwise the first guard that fails is reported; its query means that, its aggregations are the validated tree, nothing in it reads a document |
| QueryScope.SentStaysInScope | pkg/workflow/builtin/opensearch/aggallowlist.go:10-20 | every aggregation of a sent request, at any depth, computes over documents that satisfy the query and the policy |
| AggAllowlist.WalkAggs | pkg/workflow/builtin/opensearch/aggallowlist.go:96-139 | accepts exactly the trees with one allowed type per aggregation and bounded depth |
| AggAllowlist.OneTypeAndSubs | pkg/workflow/builtin/opensearch/aggallowlist.go:96-139 | an aggregation of one allowed type is as good as its sub-aggregations, under either of their names; meta data does not matter and a second type is refused |
| AggAllowlist.NormalizeAggregations | pkg/workflow/builtin/opensearch/aggallowlist.go:50-92 | what is refused, and that only a validated tree is sent, also when spelled as a text |
| AggAllowlist.AcceptedStaysWithin | pkg/workflow/builtin/opensearch/aggallowlist.go:96-139 | an accepted tree computes over subsets of the query's documents, whatever unlisted types would do |
| AggAllowlist.SafeIffListed | pkg/workflow/builtin/opensearch/aggallowlist.go:12-20 | a tree is safe under every semantics in which listed types shrink exactly when it names listed types only |
| DocRead.ReadsIff | pkg/workflow/builtin/opensearch/docread.go:39-102 | the guard fires exactly when some object anywhere in the tree points at a stored document |
| DocRead.ViolatesIff | pkg/workflow/builtin/opensearch/docread.go:39-102 | an object points at a stored document exactly when a terms member below it has an index, id or path, or its more_like_this likes or unlikes an object, alone or in a list |
| DocRead.RejectDocumentReads | pkg/workflow/builtin/opensearch/docread.go:22-37 | rejects exactly when such an object is in one of the parts |
| ChatMemory.PaddedOrder | pkg/workflow/builtin/dynamomemory/memory.go:85 | zero-padded decimal order is numeric order |
| ChatMemory.PartitionIsPrivateIff | pkg/workflow/builtin/dynamomemory/memory.go:21-23 | a session's partition is shared with no other key exactly when no part of its key holds a "#" |
| ChatMemory.DynamoCodecIsSound | pkg/workflow/builtin/dynamomemory/memory.go:85-94 | sort keys follow time, the user's before the assistant's |
| ChatMemory.AnswerExists | pkg/workflow/builtin/dynamomemory/memory.go:30-38 | such a query always has an answer |
| ChatMemory.AnswerIsTail | pkg/workflow/builtin/dynamomemory/memory.go:30-38 | any answer a descending limited query may give is the last keys, greatest first |
| ChatMemory.DynamoMemory.AppendOnce | pkg/workflow/builtin/dynamomemory/memory.go:82-118 | both messages of a turn or neither, also when the reply is lost; the table keeps representing the sessions' turns |
| ChatMemory.DynamoMemory.Append | pkg/workflow/builtin/dynamomemory/memory.go:63-80 | a taken key is tried again, up to five times, and nothing else is; it succeeds exactly when a transaction was reported written, which adds this turn once to this session; failure changes nothing or, when a reply was lost, does the same; never twice |
| ChatMemory.DynamoMemory.Load | pkg/workflow/builtin/dynamomemory/memory.go:25-54 | exactly the last min(n, MaxTurns) turns, oldest first, user before assistant |
| ContentBlocks.OpenBlocks | pkg/workflow/builtin/bedrock/stream.go:198-236 | in every stream the accumulator holds exactly the open blocks, each with its own start and its own fragments since |
| ContentBlocks.CompletedUses | pkg/workflow/builtin/bedrock/stream.go:227-236 | the completed tool uses are those of the closed blocks, each the concatenation of its own fragments |
| ContentBlocks.LastFinishIsStop | pkg/workflow/builtin/bedrock/stream.go:237-252 | the stop reason decoded is the last one shown to the agent |
| ContentBlocks.OpenersMean | pkg/workflow/builtin/bedrock/stream.go:198-236 | a tool event names the last start of its block, if nothing has closed the block since |
| ContentBlocks.WellBracketedCompletes | pkg/workflow/builtin/bedrock/stream.go:198-236 | a well-bracketed stream, however interleaved, completes each start once and leaves the accumulator empty |
| ToolDemux.HandleChunk | pkg/workflow/builtin/bedrock/stream.go:184-255 | each chunk contributes its part; the events sent are those of the parts, one for one, in order, and about the right tool use; tool uses already handed over never change again |
| ToolDemux.ConsumeStream | pkg/workflow/builtin/inferencegateway/stream.go:80-150 | events are taken only while numbered 0, 1, 2, ...; how the stream ends; what was decoded, and that just its events were sent |
| ToolDemux.Accumulator.GivenIsDecoded | pkg/workflow/builtin/bedrock/stream.go:217-244 | the text sent, the tool uses the stop events point to, as they are now, and the last stop reason sent are exactly what was decoded |
| ToolDemux.DecodersAgree | pkg/workflow/builtin/inferencegateway/stream.go:108-135 | for the same content both decoders give the content's own text, tool uses and stop reason |
| ToolDemux.BedrockShows | pkg/workflow/builtin/bedrock/stream.go:184-252 | the Bedrock decoder's events are the content's, in order, without the reasoning |
| ToolDemux.GatewayShows | pkg/workflow/builtin/inferencegateway/stream.go:108-135 | the gateway decoder's events are the content's, in order, without those of empty pieces |
| IdtCache.HashedKeyTellsPairsApart | pkg/idt/validator.go:53-58 | the keys the cache uses meet what the proofs ask of a key |
| IdtCache.KeysTellPairsApart | pkg/idt/validator.go:53-58 | a cache key names one token and one function, even when function names hold the separator |
| IdtCache.Validator.Cached | pkg/idt/validator.go:60-68 | a hit is an allow Identity gave for this very pair, remembered less than the ttl ago and at most the delay after it was given |
| IdtCache.Validator.MakeRoom | pkg/idt/validator.go:76-86 | live entries are dropped only all together, and the cache stays below 10,000 |
| IdtCache.PurgeExpired | pkg/idt/validator.go:77-82 | deletes exactly the expired entries |
| IdtCache.Validator.Remember | pkg/idt/validator.go:70-88 | the allow is cached under its pair and every entry stays backed by a real allow |
| IdtCache.Validator.Validate | pkg/idt/validator.go:220-281 | with any other goroutines in between, the decision is what Identity's answer within the call means, or a hit; a live entry is a hit; fail-open lets exactly a missing token and a missing or undecodable reply pass; cached and uncached agree on every call unless Identity changed an allow given less than ttl + delay before |
| IdtCache.Validator.ValidateIfEnabled | pkg/idt/validator.go:199-208 | with fail-open off every allow is backed by an Identity allow for the configured function, or the caller's when none is configured |
| IdtCache.Validator.ValidateForFunction | pkg/idt/validator.go:210-218 | the same for the function exactly as given |
| IdtCache.HitsAgreeIff | pkg/idt/validator.go:60-88 | hits decide as every Identity would that has not changed an allow within a span exactly when the span covers the ttl and the delay before remembering, or no hit can be older than its answer |
| IdtCache.HitAgeIff | pkg/idt/validator.go:60-88 | the answer behind a hit is always less than a span old exactly when the span covers the ttl and the delay |
| IdtCache.StaleHit | pkg/idt/validator.go:60-88 | a hit 14 ticks after its answer with a ttl of 10, which Identity has revoked since |

## Left out

- NATS, AWS, HTTP and Mongo clients, subscription and publish failures: a lost publish is a lost message of the stream model's network; other transport errors are parameters.
- JSON encoding and decoding, regular expressions over chart links, and text templates: functions given as parameters, with the one or two facts a proof needs.
- Logging, timing metrics, environment and configuration reading.
- The cancel subject and tool-result subjects of a stream, and the headers the server adds.
- The browser bridge's client, a near copy of the stream client that numbers error replies differently.
- Postgres chat memory: its window is decided by SQL in the database.
- Retry.Do: delays are unbounded integers of milliseconds, so overflow of very large exponents in Go's durations is not modelled; a jittered delay is any value from half the delay to the delay.
- AgentProcess.Process: tools are invoked one after another with one answer each; a tool's own retries and its wait for a browser answer are inside that answer.
- AutoUpdate.AutoUpdater.RunOnce: the backoff sleeps, the daily schedule and the notifications have no effect on the models and are absent; the request-time use of the fallback is in another file.
- AutoUpdate.Run: the source's loop runs until cancelled; here it makes any given number of cycles.
- QueryScope.Invoke: the index pattern check is a parameter, and the URL and the HTTP exchange after step 5 are absent.
- DocRead.RejectDocumentReads: a part that is not JSON is skipped by the source; here parts are decoded already.
- ChatMemory.DynamoMemory.Load: expiry of old items and queries that need more than one page are not modelled; a store answer that does not decode cannot occur because items are written by Append only.
- ChatMemory.DynamoMemory.Append: writers in other processes are other calls in the sequence, all on one clock that never goes back.
- ToolDemux.HandleChunk: usage counters and events dropped because the context is cancelled are absent.
- IdtCache.Validator.Validate: the delay between Identity's answer and remembering it, which the request timeout does not quite bound, is a constant that may be anything; the hash is any collision-free function with digests of one length, and the agent id and request timeout have no part in a decision.
- JsonHeap.MergeMaps: maps and slices are heap objects, their text and number leaves are values.
