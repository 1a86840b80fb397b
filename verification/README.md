# Verification of atasks

This project models atasks - remote procedure calls, task queues and broadcasts between asyncio
processes - in Dafny and proves what it is meant to guarantee: nobody gets another caller's answer,
nobody waits forever, nothing leaks, a call over the network means what a direct call means, and a
fleet that calls itself in circles still comes to an end.

`dafny verify dfyconfig.toml` checks everything.

## How it is organised

**The transport.** `InFlight` describes what one AMQP transport knows about its requests (futures, the
in-flight map, the lock) and what each code segment between two `await`s does to it. `AmqpTransport`
performs these segments on the heap, with future objects shared between the map and the waiting caller.
`Topic` has the routing keys and the matching rules of topic exchanges (section 3.1.3.3 of AMQP 0-9-1).
`Protocol` puts any number of transports, a broker and running handlers into one step relation; its steps
on a transport *are* the functions of `InFlight`. In every interleaving messages may be lost, returned or
redelivered, acknowledgements may be lost, connections may close, tasks may be cancelled and deadlines may
pass. `ProtocolInvariant` and `ProtocolPreservation` carry the inductive invariant; `ProtocolTheorems` and
`Delivery` say what follows for every run, and `Possibilities` how every run can go on: nobody is trapped, and
the bounds are reached.

**Calls.** `Tasks` gives task bodies - deterministic, calling each other, catching, re-raising and raising
anew - and the direct recursive meaning of a call under the depth guard. `CallPaths` gives a second,
independent meaning that knows nothing of traces: exceptions have identities, and a journal records who
let which exception escape. `Loopback` runs a program on the heap through the loopback transport. `Network`
runs the same programs over `Protocol` without faults; `NetworkInvariant`, `NetworkPreservation`,
`NetworkProgress`, `NetworkTermination` and `NetworkTheorems` prove that it gives every caller the direct
result, never gets stuck and takes a bounded number of moves. `LateAck` is the alternative that
acknowledges after the handler, and its deadlock. `Frames` pins down the interpreter frames a hop records.
`Witnesses` shows that the assumptions on configurations, codecs and fleets can be met.

**The router.** `Registry`, `Subscriptions` and `Router`: registration, activation, switching and
deactivation.

**Stand-alone pieces.** `Watchdog` (a timed model of the self-watchdog thread), `NamespaceSpec` and
`HealthAddress` (the two command-line parsers with printers), `References` (the generator of light
references and the evaluation of what it generates), `ModuleImport` (what importing a module registers in a
process, with the errors that end an import), `ReferenceMeaning` (when the references name just that) and
`ReferenceExamples` (modules for which they do not); `Strings`, `Sequences` and `Wrappers` support them.

## What is assumed

- Correlation ids are never reused (a publish is its index); reply-queue names are pairwise different,
  wildcard-free and have at most two words.
- Task names that are registered, and the prefix, have no word `*` or `#`; all instances of one fleet use
  one queue setting and one prefix. `Topic.WildcardNameSteals` and `Topic.DottedPrefixesCollide` show that
  both assumptions are needed.
- The AMQP library invokes the close callback when a connection ends, also on `disconnect()`.
- One router per namespace, constructed before its tasks are registered; activations run to their end, one
  at a time.
- Codecs are lossless and no encoding is empty.
- An instance has one prefetch slot, shared by all of its consumers, the reply consumer included, as
  README.md:553-560 describes it. amqp.py:188 asks for a prefetch count of one without global scope, which a
  broker may apply to each consumer instead; there would then be more room, and the deadlock of `LateAck` would
  need a task that calls itself.
- While a module is imported no router is active, and what the generator of references does not look at raises
  nothing, registers nothing and rebinds no decorator (`ModuleImport`).

## Where the code and what it says differ

- README.md:540-565 describes failures of the caller's own publish; in the code any failure to publish
  a *reply* also gives up on every request the worker's own instance has in flight (amqp.py:327-337). The
  model follows the code: `Protocol.BreakReply` is one of the sweeps in `SweepLeavesNobodyWaiting`.
- A timed-out future is cancelled while its id is still in the in-flight map, so "pending and live implies
  registered" holds and the converse does not; a deadline may also win over an answer that has arrived.
- On Python 3.10 every `CancelledError` counts as a real cancellation (amqp.py:255-263), so a lost
  connection can surface as a cancellation there; `CurrentTask.Uncountable` is that case.
- The docstring of `_parse_namespace_spec` promises an error for a missing `name`; the code defaults it
  to `default` (service.py:241). The model follows the code.
- A light reference generated for a task function that has the name of a factory (`ataskref`, `atask_qref`,
  `atask_bref`) breaks the generated module when a later line needs that factory:
  `ReferenceExamples.TakenFactoryBreaksTheModule`, with the exact condition in `References.ModuleBinds`.
- The generator looks only at keywords written out. A name or namespace that a decorator is given by position
  or in a `**` dictionary is overlooked, and the reference then names another task than importing registers:
  `ReferenceExamples.HiddenNameMisleads` has two inputs, `ReferenceMeaning.SourceMeaning` the exact condition.
- The generator accepts sources whose import fails, such as one that defines a task function twice:
  `ReferenceExamples.DefinedTwiceFails`, `ReferenceMeaning.SameTaskTwiceFails`. The same exact condition covers it.

## Model

| member | source | states |
|---|---|---|
| InFlight.SweepFailsExactlyThePending | atasks/transport/backends/amqp.py:228-239 | a sweep fails exactly the registered futures that are still pending, empties the map, keeps every other future and the lock, and a second sweep does nothing |
| AmqpTransport.Future.SettleWith | atasks/transport/backends/amqp.py:203-204 | a future that is done keeps its outcome |
| AmqpTransport.Transport.StartRequest | atasks/transport/backends/amqp.py:361-365 | a new pending future is registered under its id before anything is published |
| AmqpTransport.Transport.FailAwaitingRequests | atasks/transport/backends/amqp.py:210-239 | the loop over the swapped-out map performs exactly one sweep, whatever futures are shared with waiting callers |
| AmqpTransport.Transport.FinishPublish | atasks/transport/backends/amqp.py:367-402 | for each way a publish can end, spelled out case by case: own id dropped, every registered pending future failed and the map empty, or nothing changed; the verdict for the caller; and the lock released on all of them |
| AmqpTransport.Transport.FinishNotification | atasks/transport/backends/amqp.py:434-450 | an unroutable event is silently dropped, a failed publish sweeps and reports the lost connection, a real cancellation propagates without a sweep; the lock is released always |
| AmqpTransport.Transport.OnResponse | atasks/transport/backends/amqp.py:190-204 | a reply pops and resolves its own request in one step and is discarded when unknown or late |
| AmqpTransport.Transport.AbandonWait | atasks/transport/backends/amqp.py:404-410 | a deadline or cancellation cancels the future and leaves the map alone |
| AmqpTransport.Transport.FinishWait | atasks/transport/backends/amqp.py:403-414 | on every way out of the wait the own id is popped and the outcome is the one the future and the deadline dictate |
| Topic.MatchMeaning | atasks/transport/backends/amqp.py:22-35 | a binding key matches a key if and only if the key's words fall into consecutive parts, one for each word of the binding key: any part for `#`, one word for `*`, that very word otherwise |
| Topic.PlainMatchesExactly | atasks/transport/backends/amqp.py:22-35 | topic matching against a wildcard-free binding key is equality |
| Topic.RoutingKeyInjective | atasks/transport/backends/amqp.py:101-111 | under one prefix a routing key determines pattern and task name |
| Topic.TrafficNeverCrosses | atasks/transport/backends/amqp.py:22-35 | on one shared exchange, requests, events, broadcasts and replies match only bindings of their own pattern and name |
| Topic.WildcardNameSteals | atasks/transport/backends/amqp.py:301-303 | the assumption is needed: a task named `#` is bound to every request |
| Topic.QueueNameInjective | atasks/transport/backends/amqp.py:301-303 | durable queue names are injective in kind and task name |
| Topic.QueueNameInjectiveAcrossFleets | atasks/transport/backends/amqp.py:456-458 | with dot-free settings they are injective in queue setting, prefix, kind and name |
| Topic.DottedPrefixesCollide | atasks/transport/backends/amqp.py:301-303 | with dotted prefixes they are not, nor are the routing keys |
| ProtocolPreservation.RoutedToOwnQueues | atasks/transport/backends/amqp.py:301-303 | any publish is routed only to queues declared for its own kind and name |
| ProtocolPreservation.ReplyRoutedHome | atasks/transport/backends/amqp.py:318-326 | a reply is routed only to the reply queue it is addressed to |
| ProtocolPreservation.StepKeepsInv | atasks/transport/backends/amqp.py:190-450 | every step of any transport, handler or the broker, with every fault, keeps the global invariant and only accumulates publishes, results and outcomes |
| ProtocolTheorems.AnswersAreGenuine | atasks/transport/backends/amqp.py:305-326 | in every run the bytes a request returns were produced by a callback registered for its name, run on its very content |
| ProtocolTheorems.AnswersAreNotShared | atasks/transport/backends/amqp.py:190-206 | the answers of two requests come from two different handler runs: nobody receives someone else's |
| ProtocolTheorems.RepliesCarryTheirRequest | atasks/transport/backends/amqp.py:318-326 | in every run, every copy ever put into a reply queue is the result of a handler, with the id of the request that handler was started for, in the queue of the instance that made it |
| ProtocolTheorems.ReceiptTouchesOnlyItsRequest | atasks/transport/backends/amqp.py:190-204 | in every run, receiving a reply resolves no future and pops no entry, of any instance, but that of the request whose id it carries |
| ProtocolTheorems.PendingIsRegistered | atasks/transport/backends/amqp.py:359-414 | a live request whose future is pending is in the in-flight map |
| ProtocolTheorems.SweepLeavesNobodyWaiting | atasks/transport/backends/amqp.py:275-282 | after a close callback, a reply that could not be published, or a publish that failed or was interrupted without a real cancellation, no live request of that instance has a pending future |
| ProtocolTheorems.NothingLeaks | atasks/transport/backends/amqp.py:403-412 | every key of an in-flight map belongs to a live request of that instance |
| ProtocolTheorems.LockIsHeldByThePublisher | atasks/transport/backends/amqp.py:361-402 | the lock is held by r exactly while r is being published |
| ProtocolTheorems.BrokenPublishGivesUp | atasks/transport/backends/amqp.py:381-399 | in every run, a publish that fails for any other reason than a returned message, or is interrupted though nobody cancelled its task, empties the map of its instance, fails every registered pending future and no other, frees the lock and touches no other instance; an event or broadcast then reports the lost connection, a request waits for its (failed) future |
| ProtocolTheorems.OtherPublishKeepsOthers | atasks/transport/backends/amqp.py:377-391 | in every run, a confirmed, returned or really cancelled publish changes no future and no entry but its own; the request waits, has no route or is aborted, and an unroutable event counts as sent |
| ProtocolTheorems.WakingDecides | atasks/transport/backends/amqp.py:403-414 | in every run, a waiting request ends with the answer or the lost connection its future holds, a deadline and a cancellation win over the future, and only its own entry goes |
| ProtocolTheorems.OutcomeIsFinal | atasks/transport/backends/amqp.py:403-414 | a request has exactly one outcome, for good |
| ProtocolTheorems.NoRouteMeansNeverEntered | atasks/transport/backends/amqp.py:377-379 | `NoRouteError`: at no time, before or after, is the message in a queue or slot, and no handler ever runs it |
| ProtocolTheorems.OnlySweepsLose | atasks/transport/backends/amqp.py:210-239 | a future turns to lost only in one of these, while registered |
| ProtocolTheorems.LostMeansSwept | atasks/transport/backends/amqp.py:210-239 | a lost future was hit by a sweep of its own transport earlier in the run |
| ProtocolTheorems.ConnectionLostMeansSwept | atasks/transport/backends/amqp.py:381-399 | `ConnectionLostError` implies a sweep of the own instance while the request was registered |
| ProtocolTheorems.OutcomeIsExplained | atasks/transport/backends/amqp.py:241-273 | a timeout implies that a timeout was given and passed; a cancellation implies a cancellation of the task that counted as real |
| Delivery.CopiesAreConserved | atasks/transport/backends/amqp.py:305-316 | at all times a copy's appearances (ready, unacknowledged, received, consumed, dropped) equal its one creation plus its lost acknowledgements |
| Delivery.AtMostOneStartPerLostAck | atasks/transport/backends/amqp.py:305-316 | a copy starts at most one handler plus one per lost acknowledgement, and is in exactly one place when none was lost |
| Delivery.OnlyServersDequeue | atasks/transport/backends/amqp.py:288-340 | a request, event or broadcast is dequeued only by an instance whose router has its name in the registry of its kind |
| Delivery.LookupSucceeds | atasks/router.py:346-352 | for every handler ever started, the name it was started for is in its instance's registry of that kind, so the lookup never fails |
| Delivery.MatchesWhatIsAddressed | atasks/transport/backends/amqp.py:301-303 | a declared queue's binding matches a published key if and only if the queue is for that kind and name |
| Delivery.OneCopyPerBoundQueue | atasks/transport/backends/amqp.py:520-539 | routing puts exactly one copy into each queue bound for the message, none elsewhere, and refuses it exactly when there is no such queue |
| Delivery.NothingOvertakes | atasks/transport/backends/amqp.py:305-316 | in every run, as long as a message waits in a queue in front of another one that is not put back, the other one is not delivered |
| Possibilities.EveryPublishCanEnd | atasks/transport/backends/amqp.py:359-414 | from any state any run has reached, every unfinished request, event or broadcast can end within two steps of its own task, whatever broker, workers and other instances do or fail to do |
| Possibilities.CanLeave | atasks/transport/backends/amqp.py:404-410 | a waiting request whose deadline passes ends in a timeout, one that is cancelled in the cancellation |
| Possibilities.CanLoseTheConnection | atasks/transport/backends/amqp.py:275-282 | a waiting request without an answer ends with the lost connection once the close callback runs |
| Possibilities.LockCanBeHad | atasks/transport/backends/amqp.py:361-402 | one step of whoever holds the lock, and any publish that waits for it can have it |
| Possibilities.OneStartMoreThanLosses | atasks/transport/backends/amqp.py:305-316 | the bound of `AtMostOneStartPerLostAck` is reached: for every n, n lost acknowledgements may mean n + 1 handlers for one copy |
| Possibilities.AnotherTakesOver | atasks/transport/backends/amqp.py:305-316 | a copy that is not acknowledged when its instance goes away is taken over by any other instance that consumes its queue |
| Possibilities.CanServe | atasks/transport/backends/amqp.py:288-340 | from any state, any instance can come to serve any wildcard-free name of any kind, and to consume its own reply queue |
| Possibilities.CanBeLost | atasks/transport/backends/amqp.py:305-316 | a message that waits in its queue can be lost |
| Possibilities.CanDisappear | atasks/transport/backends/amqp.py:520-539 | a private queue can disappear, and a consumer can be cancelled |
| Possibilities.CanFailToReply | atasks/transport/backends/amqp.py:327-337 | a handler can crash before its reply or fail to publish it; nothing is then in any queue unless the broker had accepted it, and a failed publish empties the map of its instance |
| Loopback.Runtime.PushHop | atasks/trace.py:334-370 | fails exactly at the depth limit, else appends a hop with the next number and the task called, which is root if and only if no handler encloses the call - whatever chain was received |
| Loopback.Runtime.AttachTrace | atasks/trace.py:387-403 | attaches the current chain unless a trace is there |
| Loopback.Runtime.Stub | atasks/router.py:482-487 | running a call on the heap through router, codec and loopback transport gives the direct result and restores `CURRENT` and `ENTRY_FRAME`, on success and failure |
| Loopback.Runtime.SendRequest | atasks/router.py:255-265 | encode, deliver, decode: value or exception as direct evaluation gives it |
| Loopback.Runtime.Deliver | atasks/transport/base.py:313-329 | an unknown name is refused, a known one answered by its callback |
| Loopback.Runtime.OnRequest | atasks/router.py:345-365 | installs the received chain for the body and restores the previous one |
| Loopback.Runtime.CallCoro | atasks/router.py:447-456 | runs the body inside a new entry frame, attaches the trace on failure, restores the frame |
| CallPaths.TraceIsFirstEscape | atasks/trace.py:387-403 | an escaping exception's hops are exactly the call path to the task whose body first let that very exception escape, whatever was caught, re-raised or raised anew on the way; hop i has number i and is root only for i = 0 |
| CallPaths.ReceivedChainIsExtended | atasks/router.py:345-365 | the same for a handler that received any chain, also the empty one of a plain `send_request`: every trace leaving it is that chain and one hop per call of the path to the first escape, numbered by place, none of them root |
| CallPaths.EscapesAreTraced | atasks/router.py:447-454 | an exception leaving a served task always carries a trace, which starts with that task's own path |
| CallPaths.TraceExtends | atasks/trace.py:387-388 | a trace is never overwritten while bubbling up: it extends the chain of every body it passes |
| CallPaths.CallStarts | atasks/trace.py:334-338 | from any depth, a call starts at most the remaining sum of powers of b handlers, for b calls per body, even if bodies catch the depth error |
| CallPaths.RootCallStarts | atasks/trace.py:334-370 | one root call starts at most the sum of b^i for i below the depth limit, and no chain is longer than the limit |
| NetworkTheorems.MovesAreProtocolSteps | atasks/transport/backends/amqp.py:359-414 | the fault-free fleet is a restriction of the protocol: each of its moves is one of its steps or leaves it alone |
| NetworkTheorems.StubCallsAreDirect | atasks/router.py:255-265 | under any interleaving a stub call ends with the value or exception, trace included, that direct evaluation gives |
| NetworkTheorems.ClientsGetDirectResults | atasks/router.py:345-365 | a client that is over ended as direct evaluation of its body does |
| NetworkTheorems.CallersCanTell | atasks/router.py:255-265 | a stub returns a value only from a non-empty answer that decodes to it; every other ending of a request raises its own fault, without a trace |
| NetworkProgress.NeverStuck | atasks/transport/backends/amqp.py:305-312 | no deadlock: while a client is not over some move is possible, with one slot per instance and arbitrarily nested or self-referential calls |
| NetworkTermination.MoveUsesItsPrice | atasks/transport/backends/amqp.py:359-414 | whatever price is put on moves and on handler starts, every move of a healthy fleet uses up exactly its price of a measure computed from the program |
| NetworkTermination.RunsAreBounded | atasks/trace.py:334-338 | counting moves: no healthy run is longer than the initial measure |
| NetworkTermination.HandlersAreCounted | atasks/trace.py:334-338 | counting handlers: in every healthy run the handlers started and those still to start add up to what the program needs |
| NetworkTermination.HandlersAreBounded | atasks/trace.py:334-370 | with at most b calls per task body, every run of a fleet starts at most, per call its clients may make, the sum of b^i for i below the depth limit handlers |
| NetworkTheorems.HealthyFleetsFinish | README.md:553-560 | every healthy run is bounded, and when nothing can move any more every client has its direct result |
| NetworkTheorems.EveryFleetCanFinish | README.md:553-560 | from every start some run gets to the end, where every client has its direct result |
| NetworkTheorems.ChainsStayShort | atasks/trace.py:334-370 | no chain sent over the network is longer than the depth limit |
| NetworkTheorems.HandlersFindTheirTask | atasks/router.py:346-352 | every handler a healthy fleet starts is for a task of the fleet that is in the registry of the handler's own instance |
| LateAck.LateAckDeadlocks | README.md:553-560 | with acknowledgement after the handler: whenever the one client of a one-instance fleet first calls a served task whose body first calls a served task, some run ends in a state where the client waits and nothing can happen |
| LateAck.HandlersHoldTheSlot | README.md:553-560 | what the variant is, in every run of it: an instance runs one handler at a time, whose copy holds the slot from the moment it is taken until the reply and no longer |
| LateAck.Ask | atasks/transport/backends/amqp.py:359-414 | the publishing of a call in that variant, step by step |
| LateAck.AllWaitIsStuck | README.md:553-560 | why: one handler holds the slot that the copy it waits for needs |
| Witnesses.ConfigExists | atasks/transport/backends/amqp.py:101-111 | the assumptions on prefix and reply names can be met |
| Witnesses.CodecExists | atasks/router.py:255-265 | lossless codecs with non-empty encodings exist |
| Witnesses.FleetExists | atasks/router.py:148-170 | for any wildcard-free task names, any task bodies and any client bodies there is a fleet ready to run them: what `Network` assumes of a start can be met |
| Frames.WalkFramesUntil | atasks/trace.py:219-245 | the loop collects the unfiltered frames below a call site, outermost first, up to and excluding the boundary |
| Frames.WalkTracebackAfter | atasks/trace.py:248-278 | the loop collects the unfiltered traceback entries behind the boundary's first occurrence; nothing if the boundary is missing |
| Frames.AfterBoundary | atasks/trace.py:267-273 | what is kept is the part behind the boundary |
| Frames.NoBoundaryToSkip | atasks/trace.py:267-273 | without a boundary the whole traceback is kept; with one that does not occur, nothing |
| Frames.FrameScoping | atasks/trace.py:340-353 | in every reachable state of an asyncio task, spawned or not: the chain is the inherited one and one hop per call in progress, numbered by place; only the first call of a task that inherited no handler is root; the frames of a hop are the filtered ones strictly between its handler's frame and its call site, none of them a handler frame |
| Frames.SegmentsAreDisjoint | atasks/trace.py:340-353 | no frame is recorded by two hops |
| Frames.RaiseFramesAreScoped | atasks/trace.py:391-395 | the frames kept of a traceback caught by the innermost handler are exactly those behind its own |
| Frames.CallRestores | atasks/trace.py:301-310 | from a call to its return, whatever happens in between, stack, `CURRENT` and `ENTRY_FRAME` are as before |
| Frames.CodeGoesOn | atasks/trace.py:301-310 | in every reachable state, running code can make another nested call, and a handler can end |
| Frames.SpawnedTaskIsNotScoped | atasks/trace.py:340-353 | in every run of a task spawned by a handler, that handler's frame is on no place of the stack, and the first hop is no root and yet records the whole stack below its call site |
| Registry.RegistryItem.Update | atasks/registry.py:24-26 | the other item's options win, the rest stay |
| Registry.Manager.Register | atasks/registry.py:54-70 | a known name is refused or, in a uniting manager, merged in place; a new one is appended |
| Registry.Manager.Unregister | atasks/registry.py:81-89 | removes exactly that name and keeps the order of the others, or reports that there is none and changes nothing |
| Registry.Manager.Get | atasks/registry.py:91-104 | finds the item, or creates it in a uniting manager, or finds nothing |
| Subscriptions.SubscribeAllHeld | atasks/router.py:161-167 | subscribing all names adds exactly one subscription per name and kind |
| Subscriptions.UnsubscribeAllHeld | atasks/router.py:181-190 | unsubscribing them leaves none of them and nothing else changed |
| Subscriptions.LifeIsConsistent | atasks/router.py:128-190 | over every sequence of register, activate, switch and deactivate steps: the names recorded while active equal the three registries, free of duplicates, and are exactly this router's subscriptions on its server; every other transport holds none |
| Subscriptions.RegisteredExactly | atasks/router.py:474-479 | over every such sequence, a name is registered for a kind if and only if it was once registered for it while no server was active |
| Router.LoopbackTransport.RegisterCallback | atasks/transport/base.py:331-389 | how each registration changes the callback dictionaries |
| Router.LoopbackTransport.Publish | atasks/transport/base.py:343-374 | which callbacks an event or broadcast reaches, in order |
| Router.Router.Register | atasks/router.py:474-479 | late registration and registering twice change nothing; otherwise the name is added to its registry - on the heap, this is the step `Register` of the sequences above |
| Router.Router.Activate | atasks/router.py:148-170 | leaves the old server, subscribes all registered names on the new one and records them: the step `Activate`, for any set of transports |
| Router.Router.Deactivate | atasks/router.py:181-190 | unsubscribes exactly the recorded names: the step `Deactivate` |
| Router.Router.BeginsNewborn | atasks/router.py:63-126 | a router and transports just constructed begin such a sequence |
| Watchdog.ResponsiveLoopIsNeverAborted | atasks/commands/service.py:133-153 | if every probe is run within the timeout and the loop stays open until stop, no abort ever begins, under any thread delays |
| Watchdog.LivelyLoopIsNeverAborted | atasks/commands/service.py:133-153 | the same in terms of what the loop does: open until `stop()`, each probe executed within the timeout |
| Watchdog.ProbesAreSpaced | atasks/commands/service.py:133-141 | in every run, two probes are at least a period apart, however fast the loop answers |
| Watchdog.DeadLoopIsAborted | atasks/commands/service.py:133-159 | if the loop runs no probe after t and stop is not called, SIGABRT is sent by t + period + timeout plus the thread's own delays |
| Watchdog.ClosedLoopIsAborted | atasks/commands/service.py:137-159 | a loop that is closed runs no probe any more, so without `stop()` the process is aborted by the same bound |
| Watchdog.StoppedThreadLeaves | atasks/commands/service.py:126-153 | after `stop()` no abort begins and the thread exits within timeout plus its own delays, also when it is just replacing the acknowledgement event |
| Watchdog.JoinIsLongEnough | atasks/commands/service.py:126-131 | so the thread has left when the bounded join ends, as long as seven thread steps take at most period + 1 |
| Watchdog.UnracedStopIsPrompt | atasks/commands/service.py:126-131 | when `stop()` sets the very event the thread waits for, it leaves without any waiting |
| Watchdog.StopSetsTheEvent | atasks/commands/service.py:126-129 | in every run, once `stop()` has read an acknowledgement event and gone on to join the thread, that event is set |
| Watchdog.StopIsPrompt | atasks/commands/service.py:126-131 | in every run, if the event `stop()` read is the one the thread waits for or is about to, the thread has left within five of its own steps after `stop()` began to join it |
| Watchdog.ClosedLoopEndsTheThread | atasks/commands/service.py:137-142 | posting a probe to a closed loop ends the thread within one step: it aborts, unless `stop()` was called by then, and in that case exits without aborting |
| Watchdog.NeverStuck | atasks/commands/service.py:133-153 | the time limits of the model never block: the thread can step or time can pass |
| Watchdog.OthersAreFree | atasks/commands/service.py:126-131 | nor do they keep the caller of `stop()` from going on, or an open loop from running a probe or being closed |
| NamespaceSpec.ParseNamespaceSpec | atasks/commands/service.py:224-285 | the loop with its early exits returns what the item-by-item reading gives, including which problem is reported first |
| NamespaceSpec.FillMeaning | atasks/commands/service.py:225-239 | the loop succeeds if and only if no item is malformed, no key unknown and no key repeated, and then holds exactly the given pairs |
| NamespaceSpec.ParseMeaning | atasks/commands/service.py:241-285 | a text is accepted if and only if its items are and every value fits its key; each option then says what its item says, and is the documented default without one |
| NamespaceSpec.ProblemMeaning | atasks/commands/service.py:224-271 | a text is rejected with a problem if and only if it is that of its first bad item or, where no item is bad, that of the first value that does not fit in the order mode, transport, depth, flag |
| NamespaceSpec.ModulesMeaning | atasks/commands/service.py:257-259 | the module list of a text is that of its parts around any colon, one after the other; of the empty text it is empty, of a colon-free text that text alone |
| NamespaceSpec.CollectMeaning | atasks/commands/service.py:261-271 | a flag is true exactly for `true`, `yes` and `1`, false exactly for `false`, `no` and `0`, each letter in either case |
| NamespaceSpec.DuplicatesAreRejected | atasks/commands/service.py:237-238 | a key given twice is rejected wherever the two items stand |
| NamespaceSpec.PermutedPieces | atasks/commands/service.py:226-239 | permuting the items changes neither acceptance nor the options |
| NamespaceSpec.InsertedBlank | atasks/commands/service.py:227-229 | an empty or blank item anywhere changes nothing, not even the reported problem |
| NamespaceSpec.PaddedPiece | atasks/commands/service.py:227 | nor does whitespace around an item |
| NamespaceSpec.PaddingIsNotSeen | atasks/commands/service.py:232-239 | nor around its key or its value |
| NamespaceSpec.RoundTrip | atasks/commands/service.py:224-285 | parsing the printed form of representable options returns them |
| NamespaceSpec.RepresentableIffParsed | atasks/commands/service.py:224-285 | the representable options are exactly those that some text parses to |
| NamespaceSpec.ParsePrintParse | atasks/commands/service.py:224-285 | parse, print, parse equals parse for every accepted text |
| HealthAddress.RoundTrip | atasks/commands/service.py:33-70 | parsing a printed host, port and path returns them, bracketed or not |
| HealthAddress.RepresentableIffParsed | atasks/commands/service.py:33-70 | the representable addresses are exactly those that some text parses to |
| HealthAddress.ParsePrintParse | atasks/commands/service.py:33-70 | parse, print, parse equals parse for every accepted text |
| HealthAddress.ParsedIffWritten | atasks/commands/service.py:33-70 | a text is accepted with an address if and only if, stripped and free of `?`, `#`, `@`, it writes that address: host bare or bracketed, port and path given or left to 80 and `/` |
| HealthAddress.ProblemMeaning | atasks/commands/service.py:33-70 | each of the seven problems is reported if and only if the text has it: a forbidden character, a missing host, an open bracket, something else than a port behind it, bare colons, a port that is no integer or out of range |
| Strings.ParsePrintInt | atasks/commands/service.py:65 | decimal integers survive printing and parsing |
| Strings.ParseIntMeaning | atasks/commands/service.py:65 | a text is read as n if and only if, stripped, it is an optional sign and groups of digits joined by single underscores whose digits, by place value, denote n |
| Strings.SplitJoin | atasks/commands/service.py:226 | splitting undoes joining |
| Strings.JoinSplit | atasks/commands/service.py:226 | joining undoes splitting |
| References.FindDecoratorInfo | atasks/commands/refs.py:15-34 | the loop over the keywords collects the two literal options, or rejects |
| References.TaskReferences | atasks/commands/refs.py:37-55 | the nested loops extract, per function, the reference of its first task decorator |
| References.RenderReferences | atasks/commands/refs.py:72-91 | the generated lines: header, import, one assignment per reference |
| ReferenceMeaning.RejectedIff | atasks/commands/refs.py:29-34 | a module is rejected if and only if some function's deciding decorator has a non-literal name or namespace |
| ReferenceMeaning.OptionsMeaning | atasks/commands/refs.py:29-35 | of a name and a namespace given by keyword, the last literal is collected, and nothing that is not given |
| ModuleImport.RegistryMeaning | atasks/registry.py:63-70 | an import succeeds if and only if nothing raises and no task is registered twice or known already, and then adds just its tasks |
| ModuleImport.PassedMeaning | atasks/tasks.py:45-54 | a parameter of a decorator is given by its place among three, by a keyword of its name or by an entry of a `**` dictionary, and in no other way |
| ModuleImport.DecoratorRegisters | atasks/tasks.py:45-54 | a decorator given no function registers the decorated one under the given namespace and name, or `default` and the name of the module and the function; unhashable ones raise |
| ModuleImport.GivenFunctionIsRegistered | atasks/tasks.py:45-54 | one given a function registers that one at once, and the decorated function is none any more |
| ModuleImport.MisuseRaises | atasks/tasks.py:13-54 | too many arguments, no mapping behind `**` or a parameter given twice: the first thing to happen is an error |
| ModuleImport.TakenNameDecorates | atasks/tasks.py:45-54 | a decorator whose name a task function has taken calls that function's stub, or fails; an own function leaves the decorated one alone |
| ModuleImport.StackedRegistersTheStub | atasks/router.py:482-487 | of two stacked decorators the outer one registers the stub of the inner one, under the name that all stubs share |
| ReferenceMeaning.DecoratorMeaning | atasks/tasks.py:45-54 | where Python accepts the call, the reference made from a decorator names the task the function then stands for if and only if what is passed by position or in a dictionary is what the generator assumes |
| ReferenceMeaning.SourceMeaning | atasks/commands/refs.py:37-55 | the extracted references are, one by one, what importing the module into a process makes of its plainly decorated top-level functions - if and only if the import succeeds (no misused decorator, no task twice or known already, inner decorators included) and every outermost decorator is transparent and has kept its name |
| ReferenceMeaning.SimpleIsTransparent | atasks/tasks.py:13-54 | one task decorator with keyword options only, none twice, names as literals: always transparent, never rejected, and it registers just the task its reference names |
| ReferenceMeaning.SimpleSourceIsTransparent | atasks/tasks.py:13-54 | a module used as documented meets the condition if and only if its references name pairwise different tasks that the process does not know yet |
| ReferenceMeaning.SameTaskTwiceFails | atasks/registry.py:65-69 | a module with two decorators registering one task: the import fails, and not all references agree |
| ReferenceExamples.DefinedTwiceFails | atasks/registry.py:65-69 | a module of documented usage that defines a function twice: references are generated, importing fails at the second |
| ReferenceExamples.TakenDecoratorMisleads | atasks/commands/refs.py:15-28 | a task function that takes the name of its decorator: the next function's reference names a task that is not registered |
| ReferenceExamples.HiddenNameMisleads | atasks/commands/refs.py:29-35 | a name in a `**` dictionary or given by position: importing registers `x`, the reference says `m.f` |
| References.ModuleBinds | atasks/commands/refs.py:72-91 | the generated module evaluates if and only if no function takes the name of a factory that a later line uses, and then every name means its last reference |
| ReferenceMeaning.SingleModulePreservesMeaning | atasks/commands/refs.py:37-55 | in the module generated from one source, the last reference of a name is bound to the task importing makes of its function if and only if it agrees with it, so always in a transparent source |
| ReferenceMeaning.CombinedModulePreservesMeaning | atasks/commands/refs.py:148-156 | several sources in one module, each imported into any process, shared or not: every task function of every source is bound to the task importing makes of it if and only if every source is transparent where it is imported |
| ReferenceMeaning.CombineMeaning | atasks/commands/refs.py:152-155 | sources are combined if and only if no two references, of one source or of different ones, have one function name |
| ReferenceExamples.TakenFactoryBreaksTheModule | atasks/commands/refs.py:72-91 | a concrete module of documented usage whose generated references cannot be evaluated |

## Left out

- aio_pika and aiormq, sockets, heartbeats and robust re-declaration after a reconnect: replaced by
  nondeterministic publish outcomes, close callbacks, lost acknowledgements and redelivery. Queues whose
  exclusive owner disconnects may disappear (`Protocol.Undeclare`) at any time.
- Registering and unregistering callbacks holds the transport's lock across broker round trips; in the model
  declaring a queue and starting or cancelling a consumer are single steps that need no lock.
- Events and broadcasts appear in `Protocol` and `Delivery`, not in `Network`: their callers get no result.
- Fault-free means in `Network`: no losses, no timeouts, no cancellations; the statements under faults are
  those of `ProtocolTheorems`.
- The loopback transport's runtime in `Loopback` runs one program at a time; several concurrent loopback
  calls are not interleaved.
- Task bodies are deterministic, sequential and bounded; bodies that spawn sub-tasks or await calls
  concurrently are not modelled, except for the frames and chain of a spawned task (`Frames`).
- `BaseException`s that are not `Exception`s (a cancelled handler), and exceptions that refuse the
  `__atask_trace__` attribute.
- Hop fields other than number, task, root flag and frames (`call_id`, host, pid, time, caller location) and
  the rendering of traces.
- Capturing live frames, `linecache` and the resolution of module paths: frames are values and the filter is
  an arbitrary predicate on file names. A frame stays the same object as long as it is on the stack.
- `PickleCodec` and its error path.
- `os.kill`, the SIGKILL after `kill_after`, the systemd client, the aiohttp endpoint, argparse, logging and
  dynamic module loading. The watchdog's `stop()` is called at most once.
- `int()` on digits outside ASCII and its limit on very long numerals; `str.lower` outside ASCII letters,
  which no accepted word contains.
- The duration option of the service command (`_positive_seconds`): one float comparison.
- Python's parser and the quoting of string literals with `%r`: the generator goes from a syntax tree to
  lines with string values. Checks on paths and files of the refs command are left out too.
- ReferenceMeaning.SourceMeaning: covers top-level functions whose task decorators are written with their plain
  imported names. `@tasks.atask`, an aliased `atask` and functions inside a class or under an `if` register tasks
  that the generator does not see and the model does not list; such hidden registrations are taken to be absent.
  Other decorators, own functions named like a task decorator included, are taken to keep module, name and meaning
  of what they are applied to.
- Loopback.Runtime.Deliver: without the timeout branch, which cancels the callback while it runs (base.py:320-329).
- Watchdog.JoinIsLongEnough: the bound counts the thread's own delays explicitly; with instant steps it is
  the plain join bound.
