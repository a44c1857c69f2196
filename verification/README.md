# Conn-Conductor in Dafny

Conn-Conductor keeps many MQTT and XMPP connections alive and drives them with actions. This project
models the parts that carry its guarantees and proves them for every run, every schedule and every input:

* **The action engine** (`EngineModel`, `EngineInvariants`, `EngineOrder`, `EngineRates`,
  `EngineShutdown`, `EngineObject`). `EngineModel` is a step system: a submission, each step of each
  worker, the passing of time, cancel, close, and the disconnection of the pool are events, and a run is
  any list of enabled events. The hash, the number of workers, the size of the queues, the clients and the
  schedule are arbitrary. `EngineObject.Engine` is the object whose fields the methods change; a ghost
  field ties each of its methods to events of the step system, so every use of the object is a run.
* **The MQTT client** (`MqttSession`, `MqttClientObject`, `Reconnect`, `ReconnectSession`). Subscribe and Unsubscribe release
  the lock around the broker call, so each operation is several steps and a connection loss may fall
  between any two of them. What the client guarantees holds for one caller at a time;
  `TwoCallersDuplicate` and `TwoCallersDoubleClose` are runs in which two callers break it.
* **The engine together with its clients** (`Composition`, `CompositionEffects`,
  `CompositionShutdown`, `CompositionDrain`). That there is only one caller per client is
  the engine's doing. The composed system has no such restriction built in; that it never happens is proved.
* **The template cache** (`TemplateCache`), with its two locked sections and its pool of random sources.
* **Stanza metadata, CWMP replies and Informs** (`Decimal`, `Metadata`, `CwmpReply`, `InformEvents`).
* **Ticks, declarative entries, the pool and client IDs** (`Ticker`, `Declarative`, `Pool`).
* `Wrappers` and `Counting` hold the option type and facts about sums, filters and concatenations.

`dafny verify dfyconfig.toml` checks the whole project.

## Results worth knowing

* **A connection loss can leave a stale topic.** A loss between the broker's acknowledgement and the second
  locked section of Subscribe leaves in the local list a topic that the broker does not hold; the next
  Subscribe of it returns success without asking the broker (`StaleTopicHappens`). While
  a client is not shutting down and has nothing in flight this is the only way the two sides disagree, for
  at most one topic at a time (`SubscriptionAgreement`).
* **Pending Informs share memory.** They keep their event codes in every run exactly when the configured
  slice has no spare capacity (`InformsKeptIffNoSpare`). Nothing in the repository makes one with room: the
  slice is set once, in `NewCWMPBehavior` (pkg/behavior/xmpp_cwmp.go:52-73), from what mapstructure v2.4.0
  decodes into a nil slice, and is never appended to in place of itself. That decoder is not part of this
  model; the Informs are safe as long as it allocates no more than it fills.
* **A submission after the queues are closed stops the process.** Tick goroutines are outside the wait
  group, so the shutdown results name the hypothesis that nobody submits actions after the close, and
  `CrashesIffLiveProducer` shows that the same hypothesis is exactly what is needed. An empty submission,
  which is all the tick of the CWMP behavior makes, does no harm and is allowed throughout.
* **A stanza record does not always come back.** An empty destination is replaced by the target, and an IQ
  without an ID is refused; in every other case the round trip is the identity (`RoundTrip`).
* **Late reconnections.** One attempt can still start after the stop channel is closed, when the timer was
  chosen just before (`LateAttemptHappens`). A further one needs a select that is reached only after its
  whole wait is over, since a select with both cases ready takes either; the late attempts are at most one
  plus the number of such selects, and none beyond them in a loop started with the channel closed
  (`AtMostOneLateAttempt`). Every number of them can happen (`OversleptAttemptsHappen`). Of all attempts
  after a Disconnect at most one succeeds (`AtMostOneReconnection`), and one can: the client is then
  connected although its Disconnect has returned, and nothing is left to end that (`ConnectedAfterDisconnect`).
* **A client that is not pooled is left running.** A client replaced in the pool by another of its ID, as every
  client but the last is under a static ID, is not reached by the final disconnection. When all is over a
  client is shutting down with its stop channel closed if and only if the pool held it or an action
  disconnected it (`EndedExactly`, `OnePerIDEnds`).
* **A client added while the pool is disconnected is lost.** It leaves the pool without a Disconnect
  (`DisconnectAll`).

## Assumptions

* Every step is atomic. A broker acknowledgement is the moment the broker's own set changes; a refused
  call left that set alone. A connection loss is one step that clears the broker's set (clean session,
  section 3.1.2.4 of MQTT 3.1.1) and, unless the client is shutting down, the local list.
* The hash is an arbitrary function to 32-bit values, converted to a 64-bit int.
* A limiter's `Wait` that is entered after the cancellation fails, and one entered before is refused only
  because of it. Grants in a time T are at most burst + rate * T; `BucketMeetsContract` derives this for an
  ideal token bucket in which a grant is the moment its token falls due, and `PacedRateBound` states
  the rate bound behind such a bucket. `Execute` never yields `Skipped`, which is the engine's own outcome.
* A client joins the pool at any time before the disconnection takes its snapshot; one that joins later is covered
  by `DisconnectAll` alone.
* A broadcast reads the pool and the connection flags in one step with the tick's increment.
* Between the behavior's reply and the client's Send the action goes through the engine: its bounded queue may
  drop it, a limiter may skip it, and the library's own send may fail. `ReplyPipeline` speaks of a reply that
  is let through; the other cases are those of `SubmitActions`, `ExecuteAction` and `XmppClient.Send`.
* XML parsing, template parsing and rendering are parameters. Cloning a cached template
  succeeds: text/template's Clone has no failing path.
* Counters do not reach the limits of their 64-bit types. Slices are views on backing arrays; how much
  room a reallocation adds is arbitrary.

Where the program's own text differs from its code the model follows the code: `enable_rate_limit`, which
the program's README and its sample configurations set, is read nowhere, so a limiter exists exactly when
its rate is positive; and the log line of a failed reconnection announces twice the last wait, up to 60
seconds, while the wait itself is capped at 30.

## Model

| member | source | states |
|---|---|---|
| EngineModel.QueueIndex | pkg/engine/engine.go:166-170 | The queue of an ID is the one index below the number of workers that is congruent to its 32-bit hash: the conversion never makes the remainder negative. |
| EngineModel.SharedQueue | pkg/engine/engine.go:166-170 | Two IDs share a queue if and only if the number of workers divides the difference of their hashes. |
| EngineInvariants.InvKept | pkg/engine/engine.go:166-262 | Every event, of any worker in any order, keeps each queue bounded, FIFO and holding only batches of clients that hash to it, each action balance, and the counters equal to what the log shows. |
| EngineInvariants.ReachedHolds | pkg/engine/engine.go:79-262 | The invariant holds in every state that some run from a fresh engine reaches. |
| EngineInvariants.ConservationPerQueue | pkg/engine/engine.go:172-262 | Per queue: submitted = dropped + queued + not yet run + processed + abandoned by panic; processed plus the one about to be counted = succeeded + failed + skipped; the queue never exceeds its size. |
| EngineInvariants.ConservationGlobal | pkg/engine/engine.go:172-262 | The same balance over the whole engine with the shared processedCount; processedCount plus the actions about to be counted = succeeded + failed + skipped over all workers; and msgCount is the number of successful sends. |
| EngineInvariants.OutcomesPartition | pkg/engine/engine.go:215-262 | In any log, a worker's counted actions are exactly its succeeded, failed and limiter-skipped ones; panics are not counted. |
| EngineInvariants.OutcomesPartitionAll | pkg/engine/engine.go:215-262 | The same over all workers. |
| EngineInvariants.BusyIsRouted | pkg/engine/engine.go:166-201 | A worker only ever holds batches of clients whose ID hashes to its queue. |
| EngineInvariants.MutualExclusion | pkg/engine/engine.go:166-201 | In every reachable state two different workers never hold the same client ID, so no two Execute calls of one ID overlap. |
| EngineOrder.Refinement | pkg/engine/engine.go:166-262 | Forward simulation: each event of the sharded engine is one step, or none, of one sequential FIFO executor per client ID. |
| EngineOrder.ExecutorKeepsOrder | pkg/engine/engine.go:189-220 | The sequential executor's log stays the concatenation, in order, of one prefix per started batch, whole unless it panicked or still runs. |
| EngineOrder.PerClientOrder | pkg/engine/engine.go:166-220 | In every run the log of a client ID is the in-order concatenation of one prefix per dequeued batch, and dequeued followed by queued batches are the accepted ones in order of acceptance. |
| EngineRates.GrantKept | pkg/engine/engine.go:222-248 | Every event keeps: grants of a limited kind = begun actions of that kind + workers holding a grant. |
| EngineRates.RateBound | pkg/engine/engine.go:222-249 | In any window of any run, given the limiter's grant bound, at most burst + rate * T + workerCount actions of a limited kind begin, over all workers together. |
| EngineRates.RateBoundOfKind | pkg/engine/engine.go:222-249 | The bound against the limiters as configured: sends by the send limiter, subscriptions by the subscribe limiter, disconnects by the disconnect limiter. |
| EngineRates.BucketMeetsContract | pkg/engine/engine.go:128-164 | A token bucket that starts with at most its burst and refills at its rate meets the grant bound over every window. |
| EngineRates.PacedRateBound | pkg/engine/engine.go:128-249 | Behind such a bucket the rate bound holds with nothing else assumed. |
| EngineRates.BudgetKept | pkg/engine/engine.go:222-248 | After the cancellation no event increases begun limited actions plus workers that can still begin one. |
| EngineRates.CancellationBound | pkg/engine/engine.go:222-249 | Over any continuation after the cancellation at most workerCount further actions begin of the kinds whose own limiter is configured, all together. |
| EngineRates.CancellationOfKind | pkg/engine/engine.go:222-249 | The same for each kind by its own limiter. |
| EngineRates.SkippedOnlyAfterCancel | pkg/engine/engine.go:222-245 | In every run an action is skipped only after the cancellation and only when its kind has a limiter of its own, so an Unsubscribe never is. |
| EngineShutdown.WorkShrinks | pkg/engine/engine.go:172-262 | Unless actions are submitted, every worker step strictly lowers the work left and no other event raises it. |
| EngineShutdown.SomeStepEnabled | pkg/engine/engine.go:184-262 | After the close no worker that has not finished is ever stuck inside the engine. |
| EngineShutdown.Drain | pkg/engine/engine.go:370-388 | From any reachable closed state, unless actions are submitted, the workers take a bounded number of steps, and when they can take no more all have exited, all queues are empty and what was dequeued is exactly what was accepted, in order. |
| EngineShutdown.DrainExists | pkg/engine/engine.go:370-388 | From every such state the drain can be completed. |
| EngineShutdown.PoolDisconnectedLast | pkg/engine/engine.go:383-388 | In every reachable state in which the disconnection of the pool has begun, no worker is inside an action and no accepted batch is left. |
| EngineShutdown.CrashesIffLiveProducer | pkg/engine/engine.go:331-345 | After the close, a run ends in a send on a closed channel if and only if it holds a non-empty submission. |
| EngineObject.ApplyOptions | pkg/engine/engine.go:34-48 | Both settings end as the options choose them and are always positive. |
| EngineObject.LastWorkersWin | pkg/engine/engine.go:24-40 | The last option that sets a positive number of workers decides it; without one it is 10. |
| EngineObject.LastSizeWins | pkg/engine/engine.go:24-48 | The last option that sets a positive queue size decides it; without one it is 1000. |
| EngineObject.BuildLimiter | pkg/engine/engine.go:128-164 | A limiter exists exactly when its rate is positive; its burst is the configured one when that is positive, else the fallback, and at least 1 always. |
| EngineObject.Engine.constructor | pkg/engine/engine.go:93-125 | A new engine is the initial state of the step system under the chosen settings. |
| EngineObject.NewEngine | pkg/engine/engine.go:79-126 | An engine is made exactly for a known connector that the behavior supports; an unknown connector is the reason that is reported first. |
| EngineObject.Engine.SubmitActions | pkg/engine/engine.go:172-182 | Appends the whole batch to the queue whose index is congruent to the client's hash, or drops it when that queue is full, or ignores it when empty; other queues are untouched. |
| EngineObject.Engine.CallExecute | pkg/engine/engine.go:247-261 | Logs the outcome and counts a successful send, with the counters still those of a reachable state. |
| EngineObject.Engine.ExecuteAction | pkg/engine/engine.go:222-262 | After the cancellation a Send is skipped exactly when there is a send limiter, and likewise a Subscribe and a Disconnect by theirs, an Unsubscribe never; otherwise the outcome is logged, and a panic gives up the rest of the batch. |
| EngineObject.Engine.ExecuteNext | pkg/engine/engine.go:216-219 | processedCount grows by one for every action that returns, whatever its outcome, and not for a panic. |
| EngineObject.Engine.ExecuteActions | pkg/engine/engine.go:215-220 | The loop logs the actions of the batch in order up to the first panic and counts all of them but a panicking one. |
| EngineObject.EntriesArePrefix | pkg/engine/engine.go:215-220 | What the loop logs is a prefix of the batch, in order, each entry with the outcome of its own action; all of it unless the last entry panicked, and no other did. |
| EngineObject.Engine.RunWorker | pkg/engine/engine.go:184-201 | Executes the batches of its queue one after another, each logged as above, until the queue is empty; no other shard changed, and it exits exactly when the queues are closed. |
| EngineObject.Engine.Stop | pkg/engine/engine.go:370-388 | Cancels, closes, drains every queue and only then disconnects the pool; nothing accepted before is lost. |
| EngineObject.Engine.QueueLen | pkg/engine/engine.go:207-213 | The number of batches in all queues together. |
| MqttSession.SessionKept | pkg/client/mqtt/client.go:109-263 | With one operation at a time, every step of Subscribe, Unsubscribe, Disconnect, every loss and reconnection keep: no duplicate topics, no second close, the broker's topics within the list up to the one in flight, and at most one stale topic. |
| MqttSession.SerialisedHolds | pkg/client/mqtt/client.go:109-311 | That invariant holds in every session one caller at a time can bring about. |
| MqttSession.QuietAgrees | pkg/client/mqtt/client.go:109-263 | With nothing in flight and not shutting down, the broker's topics are listed, a listed topic is missing at the broker exactly when acknowledged before the last loss and appended after it, and there is at most one. |
| MqttSession.RemovedTopics | pkg/client/mqtt/client.go:252-259 | Without duplicates, removing the first match removes the topic, only it, and keeps the list free of duplicates. |
| MqttSession.RemovedEntries | pkg/client/mqtt/client.go:252-259 | The other entries stay with all that is recorded of them. |
| MqttSession.StaleTopicHappens | pkg/client/mqtt/client.go:221-244 | A run in which the local list ends with a topic the broker does not hold, and the next Subscribe of it succeeds without a broker call. |
| MqttSession.TwoCallersDuplicate | pkg/client/mqtt/client.go:221-244 | A run in which two callers at once put one topic in the list twice. |
| MqttSession.TwoCallersDoubleClose | pkg/client/mqtt/client.go:296-305 | A run in which two callers at once close the stop channel twice. |
| MqttClientObject.MqttClient.constructor | pkg/client/mqtt/client.go:77-90 | A new client has an empty list, is receiving, and is the initial session. |
| MqttClientObject.MqttClient.IndexOf | pkg/client/mqtt/client.go:223-228 | The scan finds the first entry with the topic, or the length of the list. |
| MqttClientObject.MqttClient.CheckSubscribed | pkg/client/mqtt/client.go:222-229 | The first locked section answers whether the topic is listed and changes nothing else. |
| MqttClientObject.MqttClient.AppendSubscription | pkg/client/mqtt/client.go:238-240 | The second locked section appends the entry to the list as it then is. |
| MqttClientObject.MqttClient.SendSubscribe | pkg/client/mqtt/client.go:233-243 | With any number of losses before the reply and after it, back up after the last or not: a refused call records nothing; an acknowledged one ends with the topic listed, at the broker too unless the connection was lost after the reply. |
| MqttClientObject.MqttClient.Subscribe | pkg/client/mqtt/client.go:221-244 | A listed topic succeeds without any change; otherwise broker and list change as the reply and the losses before and after it dictate. |
| MqttClientObject.MqttClient.RemoveSubscription | pkg/client/mqtt/client.go:252-259 | Removes the first entry with the topic and nothing else. |
| MqttClientObject.MqttClient.Unsubscribe | pkg/client/mqtt/client.go:246-263 | An acknowledged call removes the topic from the broker and the list, a refused one from neither, with any losses before the reply and after it, back up after the last or not. |
| MqttClientObject.RemovedBothSides | pkg/client/mqtt/client.go:246-263 | In every serialised session, after an acknowledged Unsubscribe with any losses in it the topic is on neither side, and every other topic that the losses leave is still listed. |
| MqttSession.FirstMatchFinds | pkg/client/mqtt/client.go:223-228 | The scan of Subscribe succeeds exactly when the topic is in the list. |
| MqttClientObject.MqttClient.OnConnectionLost | pkg/client/mqtt/client.go:109-120 | While shutting down the list stays and no reconnection starts; otherwise the list is emptied and one does. |
| MqttClientObject.MqttClient.CloseOnce | pkg/client/mqtt/client.go:301-305 | The stop channel is closed after the call, and was closed by it only if it was open. |
| MqttClientObject.MqttClient.Disconnect | pkg/client/mqtt/client.go:296-311 | Ends shut down, stop channel closed, disconnected, with the broker's set empty, however often it is called in sequence. |
| MqttClientObject.MqttClient.StopReceiving | pkg/client/mqtt/client.go:149-153 | Clears the receiving flag and leaves the session as it was. |
| Composition.WorldKept | pkg/engine/engine.go:166-388 | Every event of engine and clients keeps the engine's and all clients' invariants, and that each operation in flight belongs to the worker of that client or to the final disconnection. |
| Composition.NoneInFlightAtBegin | pkg/engine/engine.go:247-249 | A worker about to call Execute finds no operation of that client in flight. |
| Composition.WorkersNotHeldBack | pkg/engine/engine.go:184-249 | Apart from waiting for an operation to end, the clients never disable a step of the engine. |
| Composition.OneOperationPerClient | pkg/client/mqtt/client.go:221-311 | In every run of engine and clients, down to the disconnection of the pool, a client has at most one operation in flight, its stop channel is never closed twice, no operation panics, and no topic is listed twice. |
| Composition.SubscriptionAgreement | pkg/client/mqtt/client.go:109-263 | In every such run a quiet client that is not shutting down agrees with the broker up to at most one stale topic. |
| Composition.EngineReached | pkg/engine/engine.go:166-388 | The engine part of every composed run is a run of the engine, so its theorems carry over. |
| CompositionEffects.ActionEffect | pkg/action/action.go:15-40 | In every run, from the call of Execute up to its return, apart from losses: a Subscribe changes what its client holds, at the broker and in the list, only by adding its topic, an Unsubscribe only by removing it, a Send not at all. A Subscribe that returns success had its topic listed when it ended and still has unless a loss came since; an Unsubscribe that returns success has its topic on neither side; one that returns failure changed nothing; a Disconnect returns with the client shutting down, the channel closed and nothing held at the broker. |
| CompositionEffects.EndOfSubscribe | pkg/client/mqtt/client.go:221-244 | The step that ends a successful Subscribe leaves its topic listed, and its end is stamped with the losses of that moment. |
| CompositionEffects.AnswerReported | pkg/engine/engine.go:247-261 | A Send returns success exactly when the library reported it, and a refused broker call returns failure. |
| CompositionShutdown.EndKept | pkg/engine/engine.go:247-388 | Every composed event also keeps: a worker inside Execute has its operation in flight, the final disconnection is as far as its Disconnect call and only ever on pooled clients, clients Disconnect was called on are at it or have ended, and the others show no trace of it. |
| CompositionShutdown.StoppedHaveEnded | pkg/connector/pool.go:62-66 | In every run a client whose final Disconnect has returned is shutting down and has its stop channel closed, whatever losses and reconnections there were. |
| CompositionShutdown.OpEnds | pkg/client/mqtt/client.go:221-311 | An operation in flight can always be brought to its end without the engine moving. |
| CompositionShutdown.EverythingCanEnd | pkg/engine/engine.go:379-388 | From every closed state of every composed run, unless the process is down, a continuation without submissions ends every operation and every worker, drains every queue, and calls Disconnect on exactly the pooled clients; then a client is shutting down with its stop channel closed if and only if it was pooled or an action disconnected it. |
| CompositionShutdown.EndedExactly | pkg/connector/pool.go:62-70 | In every run that is over the same holds; so all clients have ended if and only if each was pooled at the disconnection or disconnected by an action. |
| CompositionShutdown.PoolHoldsLastAdded | pkg/connector/pool.go:20-24 | A client added to the pool is in it at the disconnection unless another of its ID was added later. |
| CompositionShutdown.OnePerIDEnds | pkg/connector/pool.go:20-24 | Of two clients with one ID that no action disconnects, at least one is never ended. |
| CompositionDrain.ProgressShrinks | pkg/engine/engine.go:184-388 | Every step of a worker, of an operation, or of the final disconnection lowers one measure: engine work, steps left of operations, pooled clients still to stop. |
| CompositionDrain.StuckIsOver | pkg/engine/engine.go:379-388 | A closed composed world in which no such step is left is over: drained, no operation in flight, exactly the pooled clients stopped. |
| CompositionDrain.ComposedDrain | pkg/engine/engine.go:379-388 | Over every continuation without submitted actions and without clients joining the pool, whatever the network does, the number of such steps is bounded by the measure, and when none is left everything is over. |
| Reconnect.NextWait | pkg/client/mqtt/client.go:214-217 | Doubling and capping the last wait gives min(2^n, 30) for the next attempt, and the doubled value never exceeds 60. |
| Reconnect.TotalWaitClosed | pkg/client/mqtt/client.go:195-219 | The total wait through attempt n is 2^(n+1) - 1 up to n = 4 and 31 + 30(n - 4) from there. |
| Reconnect.RunLoop | pkg/client/mqtt/client.go:195-219 | Against any environment the loop ends at the first stop or success, its n-th wait is min(2^n, 30), and it reports a connection exactly when its last turn succeeded. |
| Reconnect.AtMostOneLateAttempt | pkg/client/mqtt/client.go:199-211 | In every interleaving with the closing of the stop channel, from a loop started with it open or closed: the attempts started after the closing are at most the selects reached with their timer already fired, and one more if the channel was open at the start. |
| Reconnect.LateAttemptHappens | pkg/client/mqtt/client.go:199-211 | A run in which one late attempt starts with no such select. |
| Reconnect.OversleptAttemptsHappen | pkg/client/mqtt/client.go:199-211 | For every n a run with n such selects that meets the bound, from a closed channel and from an open one. |
| ReconnectSession.LateAttemptsInSession | pkg/client/mqtt/client.go:109-219 | In every run of a client with its own reconnect loop: the session is one of those a single caller brings about, a loop runs only while the connection is down, and the late attempts are at most one more than the overslept selects. |
| ReconnectSession.AtMostOneReconnection | pkg/client/mqtt/client.go:109-219 | From the moment a Disconnect marks the client, over every continuation, its loop reconnects it at most once, and never when none is running. |
| ReconnectSession.ConnectedAfterDisconnect | pkg/client/mqtt/client.go:195-219 | A run that ends with the client connected, its Disconnect returned and no loop running. |
| TemplateCache.Kept | pkg/config/template.go:46-97 | Every step of every caller keeps: entries are parses of their keys, results are direct parses, sources in use are distinct and not pooled. |
| TemplateCache.InvAlongRun | pkg/config/template.go:46-97 | That invariant along every interleaving of callers. |
| TemplateCache.SourcesAlongRun | pkg/config/template.go:51-52 | Under every interleaving each random source ever made is in the pool, dropped by it, or held by a caller still at work: none is lost on any path. |
| TemplateCache.FirstInsertionStays | pkg/config/template.go:86-94 | Once a key is cached, no continuation replaces or removes its entry. |
| TemplateCache.Transparent | pkg/config/template.go:46-97 | For every interleaving, each cached entry is the parse of its key, failed parses are never stored, every finished caller has the result of direct parsing, and two callers rendering at once use different random sources. |
| TemplateCache.Templates.constructor | pkg/config/template.go:12-21 | The cache and the pool of sources start empty. |
| TemplateCache.Templates.GetOrCreate | pkg/config/template.go:67-97 | Fails exactly when the key does not parse, and then stores nothing; otherwise returns the parse bound to the caller's source, keeps all entries, and stores its own only when neither the first nor the second look found one. |
| TemplateCache.Templates.Execute | pkg/config/template.go:46-65 | The empty template renders to the empty string; any other gives what parsing and rendering directly would, with a source that is back in the pool on every path. |
| Decimal.AtoiOfItoa | pkg/action/xmpp/metadata.go:216-226 | Reading back the decimal form of any 64-bit integer gives that integer. |
| Decimal.AtoiAccepts | pkg/action/xmpp/metadata.go:216-226 | A text is accepted exactly when it is an optional sign and digits that denote a 64-bit integer, and is read as that integer. |
| Decimal.DigitsCanonical | pkg/generator/credential.go:35-40 | The decimal form has no leading zero and ends with the remainder by ten. |
| Decimal.SuffixInjective | pkg/client/xmpp/client.go:292-297 | A prefix, a separator that is no digit and a number can be read back from their concatenation, even when the prefix holds separators and digits. |
| Decimal.DigitsInjective | pkg/generator/credential.go:35-40 | Distinct numbers have distinct decimal forms. |
| Metadata.RoundTrip | pkg/action/xmpp/metadata.go:79-275 | A record of its proper kind is returned by parsing its map if and only if its destination is non-empty or the target is empty too, and an IQ has an ID. |
| Metadata.ParseIsStable | pkg/action/xmpp/metadata.go:79-275 | For every accepted map, encoding the record and parsing again gives the same record. |
| Metadata.BaseReadBack | pkg/action/xmpp/metadata.go:97-121 | The base fields of any record come back from any of the three maps, with an empty destination replaced by the target. |
| Metadata.FieldsByName | pkg/action/xmpp/metadata.go:244-275 | Each field of a record travels under its own key, and the map holds no other key. |
| Metadata.ReadsByName | pkg/action/xmpp/metadata.go:97-199 | From any accepted map each field of the record is the string under its key, or empty; an empty destination becomes the target. |
| Metadata.RefusedExactly | pkg/action/xmpp/metadata.go:79-230 | A missing kind, an unknown kind, a missing type and a missing IQ ID are refused exactly when they occur, each as such. |
| Metadata.PriorityEncodings | pkg/action/xmpp/metadata.go:200-227 | The four encodings of a priority are read as the same number. |
| Metadata.PresenceAccepted | pkg/action/xmpp/metadata.go:178-230 | A presence map is accepted exactly when its priority is absent, of a foreign type, or a finite number or decimal text in range; it is read as that number, a fractional one truncated toward zero, and as 0 when absent or foreign. |
| CwmpReply.ContainsHelper | pkg/behavior/xmpp_cwmp.go:262-269 | The scan holds exactly when the substring occurs somewhere. |
| CwmpReply.OccursIsSplit | pkg/behavior/xmpp_cwmp.go:262-269 | An occurrence is a way to split the text into what comes before, the substring, and what comes after. |
| CwmpReply.Contains | pkg/behavior/xmpp_cwmp.go:258-260 | With its guards it still holds exactly when the substring occurs. |
| CwmpReply.IsConnectionRequest | pkg/behavior/xmpp_cwmp.go:142-144 | Holds exactly when both the element name and the namespace occur in the payload. |
| CwmpReply.PacketFields | pkg/client/xmpp/client.go:57-141 | Every packet reaches the behavior with its own fields under their names and its own payload. |
| CwmpReply.ReplySent | pkg/behavior/xmpp_cwmp.go:176-204 | A reply built for an ID goes through the metadata map and the client's Send as one IQ with that ID, type and target, and nothing is sent for an empty ID. |
| CwmpReply.ReplyPipeline | pkg/behavior/xmpp_cwmp.go:102-204 | From any inbound packet to the wire: an IQ get that is recognised, parses and has an ID yields exactly one IQ to the sender with the same ID, of type result exactly when the credentials match and error otherwise; any other packet yields nothing; and an Inform is started exactly for a request with matching credentials. |
| CwmpReply.StanzaIDInjective | pkg/client/xmpp/client.go:292-297 | Generated IDs of different clients or different counters never coincide. |
| CwmpReply.StanzaIDForm | pkg/client/xmpp/client.go:292-297 | An ID is the client's name, a dash, and the counter in decimal. |
| CwmpReply.SentAsAsked | pkg/client/xmpp/client.go:307-399 | Whatever is handed to the library has the given target, the client's own name, the metadata's type and a non-empty ID, made from the counter only when the metadata has none, which never happens for an IQ. |
| CwmpReply.SentContent | pkg/client/xmpp/client.go:325-386 | A message handed over carries the given text as its body and the subject of the metadata, or none; an IQ carries the given payload if it is one for an IQ, and otherwise none. |
| CwmpReply.SendOutcomes | pkg/client/xmpp/client.go:307-404 | Sending fails exactly for refused metadata and for a message without a text, and hands over nothing exactly for a presence. |
| CwmpReply.MadeOnce | pkg/client/xmpp/client.go:292-385 | Over all sends of all clients with distinct names no ID is made twice. |
| CwmpReply.XmppClient.constructor | pkg/client/xmpp/client.go:160-171 | A new client receives and has used no ID. |
| CwmpReply.XmppClient.GenerateStanzaID | pkg/client/xmpp/client.go:292-297 | Advances the counter by one and returns the ID of its new value. |
| CwmpReply.XmppClient.Send | pkg/client/xmpp/client.go:307-404 | Hands the library at most one stanza, to the given target, with the record's ID or a fresh one, and uses the counter only for the latter, whether or not the library then fails; the call succeeds exactly when the metadata parses, a message has a text payload, and the library accepts what it is handed. |
| CwmpReply.XmppClient.StopReceiving | pkg/client/xmpp/client.go:286-290 | Clears the receiving flag. |
| CwmpReply.XmppClient.HandlePacket | pkg/client/xmpp/client.go:230-271 | The dispatch with the substring scans as they run gives the actions the pipeline result speaks of. |
| InformEvents.Append | pkg/behavior/xmpp_cwmp.go:133 | Appending, in place or not, gives a slice that reads as the old one and the new code. |
| InformEvents.KeptWithoutSpare | pkg/behavior/xmpp_cwmp.go:124-167 | Without spare capacity every run of ticks and requests keeps the configured codes and all pending Informs. |
| InformEvents.BrokenWithSpare | pkg/behavior/xmpp_cwmp.go:124-167 | With spare capacity a tick followed by a request always overwrites the reason of the periodic Inform. |
| InformEvents.InformsKeptIffNoSpare | pkg/behavior/xmpp_cwmp.go:124-167 | All runs keep every pending Inform intact if and only if the configured slice has no spare capacity. |
| InformEvents.CwmpInforms.constructor | pkg/behavior/xmpp_cwmp.go:77-88 | A non-positive interval becomes 300. |
| InformEvents.CwmpInforms.OnTick | pkg/behavior/xmpp_cwmp.go:124-137 | One periodic Inform exactly when the interval divides the tick. |
| InformEvents.CwmpInforms.Request | pkg/behavior/xmpp_cwmp.go:163-167 | Adds one Inform with its reason; without spare capacity all pending ones stay intact. |
| Ticker.ToldNext | pkg/engine/engine.go:323-344 | Only a tick tells a client anything, and exactly its own number, once, when the client is pooled and connected then. |
| Ticker.ToldHeard | pkg/engine/engine.go:323-344 | Over any run, with any connects and drops, a client is told exactly the ticks of its connected times, delivered or still in flight. |
| Ticker.SpansSeparate | pkg/engine/engine.go:335-343 | The computed stretches of connected ticks are in order, non-empty and with a missed tick between any two. |
| Ticker.SpansHoldHeard | pkg/engine/engine.go:335-343 | They hold exactly the ticks of the client's connected times, each once. |
| Ticker.ToldOnce | pkg/engine/engine.go:323-344 | In every run a tick is delivered or in flight to a client exactly once if the client was connected then, and otherwise never. |
| Ticker.TicksCounted | pkg/engine/engine.go:340-343 | The ticks a client's OnTick saw are exactly the deliveries addressed to it, with multiplicity. |
| Ticker.FiringCount | pkg/behavior/mqtt_declarative.go:70-76 | Over the ticks 1 to n an interval of k divides exactly floor(n / k) of them. |
| Ticker.HeardFires | pkg/behavior/mqtt_declarative.go:70-76 | Over the ticks of any connected times an interval of k fires the sum, over the stretches a + 1 to b, of floor(b / k) - floor(a / k). |
| Ticker.FiringsOfClient | pkg/engine/engine.go:313-345 | In every run, whenever the client connects and drops: with its deliveries done it has seen each tick of its connected times once and no other, and an interval of k fired that often. |
| Ticker.FiringsOfOneStretch | pkg/engine/engine.go:313-345 | A client connected for exactly the ticks a + 1 to b gets floor(b / k) - floor(a / k) firings. |
| Ticker.StayerHasOneSpan | pkg/engine/engine.go:335-343 | While a client stays connected its ticks are one stretch, from when it started to now. |
| Ticker.DroppedHearsNothing | pkg/engine/engine.go:335-343 | After its drop a client hears no tick until it connects again. |
| Ticker.JoinerHearsOn | pkg/engine/engine.go:335-343 | From its connect on a client that stays hears every tick. |
| Ticker.FiringsOfConnectedClient | pkg/engine/engine.go:313-345 | The case of a client connected before the first tick and never dropped: it sees the ticks 1 to n once each, and an interval of k fires floor(n / k) times. |
| Declarative.CutIsLongestPrefix | pkg/behavior/mqtt_declarative.go:92-138 | What an entry yields is the longest prefix of its stages that all render. |
| Declarative.EntryShape | pkg/behavior/mqtt_declarative.go:92-138 | An entry yields at most one action of each kind, in the order Subscribe, Send, Unsubscribe, Disconnect. |
| Declarative.CompileLength | pkg/behavior/mqtt_declarative.go:84-142 | A list of entries yields at most four actions per entry. |
| Declarative.ActsMade | pkg/behavior/mqtt_declarative.go:92-138 | Every action of a compiled list comes from an entry of the list configured for its kind, with target, topic and payload the renderings of its own templates, and its own qos and retain. |
| Declarative.EntryExact | pkg/behavior/mqtt_declarative.go:92-138 | An entry yields an action of a kind exactly when the kind is configured and its templates and those of the kinds before it render. |
| Declarative.CompileAppend | pkg/behavior/mqtt_declarative.go:84-142 | Entries are compiled each by itself, in their order. |
| Declarative.DeclarativeBehavior.constructor | pkg/behavior/mqtt_declarative.go:23-30 | A new behavior holds its timer entries, normalised. |
| Declarative.DeclarativeBehavior.InitTimerActions | pkg/behavior/mqtt_declarative.go:32-43 | One timer entry per configured one, in order, non-positive intervals becoming 1. |
| Declarative.DeclarativeBehavior.CompileNext | pkg/behavior/mqtt_declarative.go:93-138 | One turn of the loop, with its early exits, yields the stages before the first failure. |
| Declarative.DeclarativeBehavior.ActionsToCommonActions | pkg/behavior/mqtt_declarative.go:84-142 | The loop's output is the concatenation of the outputs of the entries, a failure in one not affecting the next. |
| Declarative.DeclarativeBehavior.OnTick | pkg/behavior/mqtt_declarative.go:70-79 | The calls on single entries together equal one call on the list of entries that are due. |
| Declarative.CompileDue | pkg/behavior/mqtt_declarative.go:72-76 | Compiling the due entries among the first i + 1 adds to the first i nothing, or what the call on that entry alone gives. |
| Declarative.DueExactly | pkg/behavior/mqtt_declarative.go:72-74 | The due entries are those timer entries whose interval divides the tick, in the order they are configured. |
| Declarative.SelectionsOwed | pkg/behavior/mqtt_declarative.go:70-79 | Over the ticks 1 to n in any order the selections add up to the sum over entries of floor(n / interval). |
| Declarative.SelectionsOwedOver | pkg/behavior/mqtt_declarative.go:70-79 | Over the ticks of any connected times the selections add up to the sum over entries of what each interval fires. |
| Declarative.ClientGetsOwed | pkg/behavior/mqtt_declarative.go:70-79 | In every run of the engine's ticks, whenever a client connects and drops, it gets exactly that many selections once its deliveries are done. |
| Declarative.ConfiguredOwed | pkg/behavior/mqtt_declarative.go:32-79 | The same by the configured intervals, a non-positive one firing at every tick. |
| Declarative.ConnectedClientGetsOwed | pkg/behavior/mqtt_declarative.go:70-79 | The case of a client that stays connected from before the first tick: the sum over entries of floor(n / interval). |
| Pool.ConnectionPool.constructor | pkg/connector/pool.go:14-18 | The pool starts empty. |
| Pool.ConnectionPool.Add | pkg/connector/pool.go:20-24 | The client is stored under its own ID, replacing one of the same ID. |
| Pool.ConnectionPool.Remove | pkg/connector/pool.go:26-30 | Only the given ID goes. |
| Pool.ConnectionPool.Get | pkg/connector/pool.go:32-37 | A returned client is pooled, has the ID asked for and is the only pooled one that has; none is returned exactly when no pooled client has that ID. |
| Pool.ConnectionPool.All | pkg/connector/pool.go:39-47 | Lists every pooled client exactly once, in an order the map does not fix. |
| Pool.ConnectionPool.Count | pkg/connector/pool.go:49-53 | The length of every snapshot of the pool. |
| Pool.ListsLength | pkg/connector/pool.go:39-53 | Any list that names each pooled client once is as long as the pool. |
| Pool.ConnectionPool.DisconnectAll | pkg/connector/pool.go:62-70 | Calls Disconnect on every client of the snapshot exactly once and leaves the pool empty, whatever clients others add in between. |
| Pool.ClientIDEqual | pkg/generator/credential.go:35-40 | Two indices get the same ID if and only if a static ID is set or they are the same index. |
| Pool.ClientIDForm | pkg/generator/credential.go:35-40 | A static ID is used as it is; otherwise the ID is the prefix followed by the index in decimal. |
| Pool.PoolKeys | pkg/engine/engine.go:298 | The IDs in the pool are those of the successes, in whatever order they completed. |
| Pool.PrefixSize | pkg/engine/engine.go:264-307 | In prefix mode the pool holds all successes. |
| Pool.PrefixPool | pkg/engine/engine.go:264-307 | In prefix mode each success is held under its own ID. |
| Pool.StaticPool | pkg/engine/engine.go:264-307 | In static mode the pool holds only the last success to complete. |
| Pool.PoolSize | pkg/engine/engine.go:264-307 | For every completion order the pool count is the number of distinct IDs among the successes: all in prefix mode, one in static mode. |
| Pool.SuccessesDistinct | pkg/engine/engine.go:268-302 | One goroutine per index: no index succeeds twice. |
| Pool.SuccessesExact | pkg/engine/engine.go:291-298 | The successes are exactly the connects that joined. |
| Pool.PoolOfFinishes | pkg/engine/engine.go:264-307 | Whichever connects fail, are refused by the limiter or find no factory, and in whatever order all end: the pool counts the successes in prefix mode, and in static mode one if there was any. |
| Pool.ConnectAll | pkg/engine/engine.go:264-307 | Of the goroutines, in the order they end, only the successes reach the pool, which is then the one these results describe. |

## Left out

- EngineObject.Engine.Stop: runs the workers' remaining steps one worker after another, from idle workers and with no live producer; every other schedule is covered by the step system (Drain, DrainExists), not by the object; it does not clear the clients' receiving flags.
- EngineObject.Engine.ExecuteAction: runs without interference from other workers; the cancellation in the middle of an action is an event of the step system only.
- EngineObject.Engine.RunWorker: receives and executes without submissions or other workers in between; those interleavings are in the step system.
- TemplateCache.Templates.GetOrCreate: has no error path for a failing Clone, which text/template never takes.
- CwmpReply.ReplyPipeline: leaves out the engine's queue and limiter and the library's send error between the behavior and the wire.
- EngineRates.RateBound: assumes the limiter's grant bound; its internals are not part of this model.
- Metadata.PresenceAccepted: floating-point values are reals, not a number, and the two infinities; rounding is not modelled.
- Pool.ConnectAll: the goroutines appear as the order in which they end and what each ends as; how the connect limiter paces them is not modelled.
- A second call of Engine.Stop, which would close the queues twice, and the ticker pointer set to nil on stop.
- Memory-level data races; steps are atomic.
- ReconnectSession.AtMostOneReconnection: counts the client's own loop; paho's own reconnection beside the connection-lost handler is left out there, while the session and the composed system allow a reconnection at any time the connection is down.
- CompositionShutdown.EverythingCanEnd: does not say that a client is disconnected in the end, since a late reconnection may have connected it again.
- The libraries for MQTT, XMPP, HTTP and TLS.
- Payload, quality of service and retain flag of an MQTT publication, and the quality of service of a subscription in the composed system: they do not affect what is proved there.
- Message payloads that are strings or byte slices are one case, Text.
- The sending of Informs over HTTP and the building of CWMP messages; the USP boot event; MQTT metadata.
- The bookkeeping of IQ responses, into which nothing is ever stored, and the sending of presence, which is a stub.
- The generated ID of an IQ without one is modelled but never needed, since the metadata parser refuses such an IQ first.
- The clients' receiving flag, cleared by Stop before the queues are closed, is kept by the client objects and is no event of the engine; it says which inbound packets can still become submissions.
- The publish and connect handlers' calls into the behavior: they are submissions of the step system.
- Generated user names and passwords, the connection gauge, metrics, logging, configuration loading, the behavior registry, the Prometheus server and the main program.
