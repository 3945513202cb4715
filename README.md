# Minecraft bot orchestration, modelled in Dafny

This project models the core of a system that tests a language model by letting
scripted "testing agents" play Minecraft next to it. The server keeps one
connection per game bot and runs bot actions through a rate-limited dispatcher
and a registry of action handlers. It polls bot state and pushes changes over a
WebSocket endpoint. It also drives each testing agent through a loop of
profile-driven behaviours. A React client creates test runs. From the client,
the model takes the request schema, the profile picker's toggle, the wizard's
step navigation, the duration text and the status colour tables.

One module per source file:

| module | file | shape |
|---|---|---|
| `Constants` | `server/constants/minecraft.constants.ts` | the four numeric limits |
| `Model` | `server/src/modules/minecraft/model.ts` | datatypes, literal unions with their parsers, field bounds |
| `Registry` | `.../bot/actions/action-registry.ts` | class `ActionRegistry` over a map and its key order |
| `Register` | `.../bot/actions/register.ts` | the thirteen registrations as one method |
| `Dispatcher` | `.../bot/actions/action-dispatcher.ts` | class `RateLimiter` and method `DispatchAction`, specified by pure functions |
| `Observer` | `.../bot/state/state-observer.ts` | pure fingerprints and class `StateObserver` with the poll loop |
| `Instance` | `.../bot/bot-instance.ts` | class `BotInstance`; each client event is a method |
| `Ws` | `server/src/modules/minecraft/ws.ts` | class `WsServer`: connections, subscriptions, outboxes |
| `Executor` | `server/src/modules/agents/orchestrator/behavior-executor.ts` | class `BehaviorExecutor`, one loop tick as a method on an `AgentRepository` |
| `Profiles` | `.../agents/profiles/*.profile.ts` | the two profile constants |
| `Mining` | `.../bot/actions/mining.actions.ts` | the dig and place-block handlers as functions |
| `Format` | `client/src/lib/utils/format.ts` | `formatDuration` |
| `Wizard` | `client/src/features/test-creation/hooks/use-wizard.ts` | class `WizardState` |
| `Colors` | `client/src/lib/utils/colors.ts` | the colour tables and `PROFILE_INFO` |
| `Schemas` | `client/src/lib/schemas/test.schemas.ts` | the create-test request and its issues |
| `AgentProfiles` | `client/src/features/test-creation/components/AgentProfiles.tsx` | `toggle` as a method |
| `Common` | — | shared helpers: `Option`, duplicate-free sequences, decimal digit strings and their parser, `Join`, UTF-16 length |

The connection manager's source is not part of this model. It appears only as
the map `Model.Bots` from a bot id to its status, whether it holds a game
client, and its state. Clocks are integer milliseconds passed in as
parameters. Random draws are a parameter `roll` in [0, 1). The game world is
reduced to what a handler's lookup found and whether the world call returned
or threw. Token counts and coordinates are exact rationals (`real`).

## Model

| member | source | states |
|---|---|---|
| Model.ParseStatus | server/src/modules/minecraft/model.ts:41-47 | the status schema accepts a text exactly when it is the name of one of the statuses, and then yields that status |
| Model.StatusRoundTrip | server/src/modules/minecraft/model.ts:41-47 | every status's text is accepted and gives back the same status |
| Model.StatusCount | server/src/modules/minecraft/model.ts:41-47 | there are exactly five distinct bot statuses |
| Model.CreateBotBodyBounds | server/src/modules/minecraft/model.ts:51-56 | a body the schema accepts (a username of 1 to 16 UTF-16 units) has 1 to 16 characters in its username, and a given port's whole part lies in 1..65535 |
| Model.ParseFace | server/src/modules/minecraft/model.ts:106-113 | the face schema accepts exactly the six face texts and yields the face named |
| Model.FaceRoundTrip | server/src/modules/minecraft/model.ts:106-113 | every face's text parses back to that face |
| Model.FaceCount | server/src/modules/minecraft/model.ts:106-113 | there are exactly six distinct block faces |
| Model.ParseDestination | server/src/modules/minecraft/model.ts:115-122 | the equip-destination schema accepts exactly the six destination texts |
| Model.DestinationRoundTrip | server/src/modules/minecraft/model.ts:115-122 | every destination's text parses back to it |
| Model.ParseActionType | server/src/modules/minecraft/model.ts:124-200 | a `type` discriminator is accepted exactly when it is the tag of one of the action kinds, and names that kind |
| Model.ActionTypeRoundTrip | server/src/modules/minecraft/model.ts:203-217 | every action kind's tag parses back to it, and every kind is among the union's members |
| Model.ActionTypeCount | server/src/modules/minecraft/model.ts:203-217 | the action union has exactly thirteen distinct kinds, and different kinds have different tags |
| Model.SampleAction | server/src/modules/minecraft/model.ts:203-217 | for every kind and every bot id there is an action of that kind addressed to that bot |
| Model.ActionUnionIsComplete | server/src/modules/minecraft/model.ts:124-217 | each of the thirteen kinds occurs, and every variant carries the bot id it is for |
| Model.ValidChatBounds | server/src/modules/minecraft/model.ts:196-200 | an accepted send-chat message is 1 to 256 characters long |
| Model.ParseActionStatus | server/src/modules/minecraft/model.ts:224-228 | a result status is accepted exactly when it is success, failure or cancelled |
| Model.ActionStatusRoundTrip | server/src/modules/minecraft/model.ts:224-228 | each result status's text parses back to it |
| Model.MessageKinds | server/src/modules/minecraft/model.ts:239-310 | there are four distinct client message kinds and five distinct server message kinds, and a message's kind text determines its variant |
| Registry.ActionRegistry.constructor | server/src/modules/minecraft/bot/actions/action-registry.ts:11-12 | a new registry binds no type |
| Registry.ActionRegistry.Register | server/src/modules/minecraft/bot/actions/action-registry.ts:14-20 | the handler's own type is bound to it and replaces any earlier handler; the type is appended to the listing only when it is new |
| Registry.ActionRegistry.Get | server/src/modules/minecraft/bot/actions/action-registry.ts:22-28 | gives the bound handler exactly when the type is registered, and nothing otherwise |
| Registry.ActionRegistry.Has | server/src/modules/minecraft/bot/actions/action-registry.ts:30-35 | holds exactly when `Get` finds a handler |
| Registry.ActionRegistry.RegisteredTypes | server/src/modules/minecraft/bot/actions/action-registry.ts:37-42 | lists every registered type exactly once and no other; its length is the number of bound types |
| Registry.RegisterEffect | server/src/modules/minecraft/bot/actions/action-registry.ts:14-28 | after registering `h`, looking up `h`'s type finds `h` (the last registration wins) and every other type's lookup is as before |
| Register.BuiltIn | server/src/modules/minecraft/bot/actions/register.ts:37-59 | each built-in handler is registered under its own action type |
| Register.TableAfterAllBinds | server/src/modules/minecraft/bot/actions/register.ts:37-59 | whatever was bound before, registering all built-ins binds every one of the thirteen types to its built-in handler |
| Register.RegisterAllIdempotent | server/src/modules/minecraft/bot/actions/register.ts:37-59 | registering all built-ins a second time leaves the table as the first time did |
| Register.RegisterAllActions | server/src/modules/minecraft/bot/actions/register.ts:37-59 | afterwards the registry still lists distinct types, every type is bound to its built-in handler, and `registeredTypes` has length 13 |
| Dispatcher.Refilled | server/src/modules/minecraft/bot/actions/action-dispatcher.ts:31-36 | a refill never exceeds the bucket size and, with a clock that does not run backwards, never loses tokens unless capped |
| Dispatcher.RateLimiter.constructor | server/src/modules/minecraft/bot/actions/action-dispatcher.ts:20 | no bot has a bucket at start |
| Dispatcher.RateLimiter.CheckRateLimit | server/src/modules/minecraft/bot/actions/action-dispatcher.ts:22-45 | the answer and the bot's new bucket are those of one rate-limit step from the old bucket (a fresh one for a new bot); no other bot's bucket changes |
| Dispatcher.FirstActionAdmitted | server/src/modules/minecraft/bot/actions/action-dispatcher.ts:26-29 | a bot seen for the first time starts from a full bucket stamped `now` and is admitted, leaving one token fewer than the size |
| Dispatcher.RateLimitStepBounds | server/src/modules/minecraft/bot/actions/action-dispatcher.ts:32-44 | if the clock does not run backwards, a step leaves 0..5 tokens stamped `now`. It admits exactly when the refill gave at least one token, and then leaves the refill minus one; a refusal leaves the refill |
| Dispatcher.BurstAdmitsWholeTokens | server/src/modules/minecraft/bot/actions/action-dispatcher.ts:32-44 | checks at the same instant admit exactly as many actions as there are whole tokens: the i-th passes iff at least i+1 tokens were there |
| Dispatcher.FreshBotBurst | server/src/modules/minecraft/bot/actions/action-dispatcher.ts:26-44 | with no time elapsing, a new bot gets exactly five admissions and the sixth check is refused |
| Dispatcher.RefillFromEmpty | server/src/modules/minecraft/bot/actions/action-dispatcher.ts:32-41 | an empty bucket admits again exactly once 200 ms have passed |
| Dispatcher.FailResult | server/src/modules/minecraft/bot/actions/action-dispatcher.ts:54-68 | a failure result names the action's bot and type, has status failure, carries the message, and measures the time from start to finish |
| Dispatcher.Check | server/src/modules/minecraft/bot/actions/action-dispatcher.ts:79-128 | the first check that fails decides, in the order rate limit, bot known, spawned (reporting the actual status), game client present, handler registered; otherwise the registered handler runs |
| Dispatcher.DispatchAction | server/src/modules/minecraft/bot/actions/action-dispatcher.ts:76-138 | spends the rate-limit step on the bot's bucket and returns the outcome of the check chain: a handler's own result, or a failure with the failing check's or the exception's message; it never fails to return a result |
| Dispatcher.RunChecks | server/src/modules/minecraft/bot/actions/action-dispatcher.ts:80-137 | given the rate limiter's answer, the result is what the check chain decides: the first failing check's failure, or the handler stage's result |
| Dispatcher.RunHandler | server/src/modules/minecraft/bot/actions/action-dispatcher.ts:120-137 | an unregistered type fails with the no-handler message; otherwise the registered handler's returned result is passed on, and a thrown message becomes a failure carrying it |
| Dispatcher.DispatcherFailuresEcho | server/src/modules/minecraft/bot/actions/action-dispatcher.ts:80-137 | every result not returned by a handler is a failure naming the action's bot id and type |
| Dispatcher.SuccessOnlyFromHandler | server/src/modules/minecraft/bot/actions/action-dispatcher.ts:76-138 | a non-failure result only comes from a registered handler run for an admitted, spawned bot with a client, and it is that handler's result |
| Dispatcher.RateLimitDecidesFirst | server/src/modules/minecraft/bot/actions/action-dispatcher.ts:79-87 | a refused token gives the rate-limit message whatever bots and handlers exist |
| Dispatcher.BotChecksPrecedeHandlers | server/src/modules/minecraft/bot/actions/action-dispatcher.ts:89-128 | an unknown, unspawned or client-less bot fails with the not-found, not-spawned or no-instance message whatever handlers are registered |
| Dispatcher.HandlerOutcomePassesThrough | server/src/modules/minecraft/bot/actions/action-dispatcher.ts:130-137 | past the checks, a handler's returned result is passed on unchanged and a thrown message becomes a failure carrying it |
| Dispatcher.UnknownBotSpendsToken | server/src/modules/minecraft/bot/actions/action-dispatcher.ts:79-98 | the first action for an unknown bot fails as not found and still leaves that bot's bucket one token short |
| Dispatcher.CheckMessageInjective | server/src/modules/minecraft/bot/actions/action-dispatcher.ts:80-128 | different failing checks (and different not-spawned statuses) give different messages, so the message identifies the check |
| Observer.Fixed1Injective | server/src/modules/minecraft/bot/state/state-observer.ts:26-30 | two coordinates render alike exactly when they have the same sign and the same magnitude rounded to tenths |
| Observer.PositionKeyInjective | server/src/modules/minecraft/bot/state/state-observer.ts:26-30 | two position keys are equal exactly when both positions are absent or alike in every coordinate; "null" equals no numeric key |
| Observer.InventoryHash | server/src/modules/minecraft/bot/state/state-observer.ts:32-37 | an empty inventory hashes to the empty text |
| Observer.SlotEntryInjective | server/src/modules/minecraft/bot/state/state-observer.ts:35 | with a name free of `:`, an entry text determines slot, name and count |
| Observer.InventoryHashInjective | server/src/modules/minecraft/bot/state/state-observer.ts:32-37 | with item names free of `:` and `|`, two hashes are equal exactly when the inventories are equal entry by entry, in order |
| Observer.InventoryHashExample | server/src/modules/minecraft/bot/state/state-observer.ts:32-37 | two stacks hash to `0:diamond:3|1:stone:64` |
| Observer.PositionKeyExample | server/src/modules/minecraft/bot/state/state-observer.ts:26-30 | (10.123, 64.789, -20.456) keys as `10.1,64.8,-20.5` |
| Observer.RoundingBoundaries | server/src/modules/minecraft/bot/state/state-observer.ts:28-29 | rounding to tenths hides 10.01 against 10.0 but not 0.04 against 0.06, nor 0.01 against -0.01 |
| Observer.ToSnapshot | server/src/modules/minecraft/bot/state/state-observer.ts:39-47 | the snapshot carries the state's status text, health and food |
| Observer.HasChangedIsDifference | server/src/modules/minecraft/bot/state/state-observer.ts:49-57 | a change is detected exactly when the two snapshots differ; no snapshot has changed against itself |
| Observer.ChangeDetection | server/src/modules/minecraft/bot/state/state-observer.ts:39-57 | between two states with separator-free item names, no change is detected exactly when status, position to a tenth with sign, health, food and inventory all agree |
| Observer.Purged | server/src/modules/minecraft/bot/state/state-observer.ts:93-98 | the purged cache keeps exactly the entries of bots the manager still has, unchanged |
| Observer.CacheAfterIsOverride | server/src/modules/minecraft/bot/state/state-observer.ts:79-91 | the emitting loop leaves the old cache overridden by the snapshot of every spawned state, including unchanged ones |
| Observer.EmitsAfterIsFilter | server/src/modules/minecraft/bot/state/state-observer.ts:79-91 | with distinct bot ids, each state is decided against the cache as it was before the poll |
| Observer.StateObserver.constructor | server/src/modules/minecraft/bot/state/state-observer.ts:63-66 | no snapshots, not running, nothing emitted |
| Observer.StateObserver.Start | server/src/modules/minecraft/bot/state/state-observer.ts:73-76 | afterwards the observer runs; a start while running changes nothing else |
| Observer.StateObserver.Stop | server/src/modules/minecraft/bot/state/state-observer.ts:110-117 | afterwards the observer is stopped; a running observer forgets every snapshot, a stopped one keeps its state |
| Observer.StateObserver.Tick | server/src/modules/minecraft/bot/state/state-observer.ts:76-99 | one poll emits, in order, the spawned states that are new or changed against the running cache, then keeps only snapshots of bots the manager has |
| Observer.StateObserver.PurgeRemoved | server/src/modules/minecraft/bot/state/state-observer.ts:93-98 | the cleanup loop deletes exactly the snapshots of bots the manager no longer has |
| Observer.TickCache | server/src/modules/minecraft/bot/state/state-observer.ts:79-98 | after a poll only bots the manager has are cached; each spawned bot it has is cached with its current snapshot; a bot it has that is not spawned in this poll keeps its old entry, or stays uncached |
| Observer.TickEmits | server/src/modules/minecraft/bot/state/state-observer.ts:79-91 | a poll emits a state exactly when it belongs to a spawned bot that has no cached snapshot or has changed |
| Instance.StateOf | server/src/modules/minecraft/bot/bot-instance.ts:157-197 | the snapshot is total: id, name, status and time always. Every game reading is null (inventory empty) without a client, position and orientation are null without an entity, and otherwise each is the client's reading |
| Instance.StatusEvents | server/src/modules/minecraft/bot/bot-instance.ts:203-211 | setting a status emits nothing when it equals the old one, and otherwise a status change followed by a state update carrying the new status |
| Instance.BotInstance.constructor | server/src/modules/minecraft/bot/bot-instance.ts:42-52 | a new instance is disconnected, holds no client, has armed no listener and emitted nothing |
| Instance.BotInstance.GetState | server/src/modules/minecraft/bot/bot-instance.ts:157-173 | the snapshot of the instance's current fields |
| Instance.BotInstance.SetStatus | server/src/modules/minecraft/bot/bot-instance.ts:203-211 | the status and timestamp always change; events are emitted only on a real change; nothing else changes |
| Instance.BotInstance.Connect | server/src/modules/minecraft/bot/bot-instance.ts:83-132 | with a client present the call is rejected as already connected and nothing changes. A creation failure ends in error and rejects with its message. Otherwise the status is connecting, the client is held and the four one-shot listeners are armed for the new pending promise |
| Instance.BotInstance.Spawn | server/src/modules/minecraft/bot/bot-instance.ts:110-115 | when armed: status spawned, a spawn event after the status events, in-game listeners registered, and the connect promise resolved if still pending |
| Instance.BotInstance.Login | server/src/modules/minecraft/bot/bot-instance.ts:118-120 | when armed: status connected, once |
| Instance.BotInstance.ClientError | server/src/modules/minecraft/bot/bot-instance.ts:123-127 | the one-shot listener sets error, forwards the error and rejects a pending connect; the in-game listener (lines 247-250) sets error and forwards it again |
| Instance.BotInstance.End | server/src/modules/minecraft/bot/bot-instance.ts:129-132 | the one-shot listener and the in-game one (lines 252-255) each set disconnected and emit a kicked event with the reason or "unknown"; the connect promise is left as it was |
| Instance.BotInstance.Kicked | server/src/modules/minecraft/bot/bot-instance.ts:257-260 | in game: status disconnected and a kicked event with the server's reason |
| Instance.BotInstance.Chat | server/src/modules/minecraft/bot/bot-instance.ts:220-222 | in game, a chat line is forwarded with the bot's id; nothing else changes |
| Instance.BotInstance.Health | server/src/modules/minecraft/bot/bot-instance.ts:224-227 | in game: a new timestamp and one state update of the refreshed state |
| Instance.BotInstance.Death | server/src/modules/minecraft/bot/bot-instance.ts:229-232 | in game: a death event, then a state update |
| Instance.BotInstance.EntityHurt | server/src/modules/minecraft/bot/bot-instance.ts:234-239 | a damage event exactly when the hurt entity is the bot's own |
| Instance.BotInstance.Move | server/src/modules/minecraft/bot/bot-instance.ts:241-245 | in game only the timestamp changes; nothing is emitted |
| Instance.BotInstance.ClientChanged | server/src/modules/minecraft/bot/bot-instance.ts:175-197 | the readings `getState` takes from a live client change without any event or status change |
| Instance.BotInstance.Disconnect | server/src/modules/minecraft/bot/bot-instance.ts:139-147 | afterwards no client, no listener and status disconnected; a second call emits nothing and only moves the timestamp |
| Ws.ConnectionIdInjective | server/src/modules/minecraft/ws.ts:33-37 | a connection id determines the counter value and the clock reading it was made from |
| Ws.Subscribers | server/src/modules/minecraft/ws.ts:50-51 | exactly the open connections whose set holds the bot id |
| Ws.InitialStates | server/src/modules/minecraft/ws.ts:142-150 | the replies to a subscribe request are state updates, at most one per listed bot |
| Ws.InitialStatesCover | server/src/modules/minecraft/ws.ts:142-150 | a state is sent back exactly when some listed bot has it |
| Ws.WsServer.constructor | server/src/modules/minecraft/ws.ts:29-33 | no connections, counter 0, nothing sent |
| Ws.WsServer.ConnectionCount | server/src/modules/minecraft/ws.ts:204-206 | the number of open connections |
| Ws.WsServer.Open | server/src/modules/minecraft/ws.ts:117-125 | the counter goes up by one; the new id was never handed out before and starts with no subscriptions; nothing is sent |
| Ws.WsServer.Close | server/src/modules/minecraft/ws.ts:194-200 | the connection and its subscriptions are gone; the count drops by one for an open id and is unchanged otherwise |
| Ws.WsServer.SendEach | server/src/modules/minecraft/ws.ts:50-58 | every target whose send does not fail gets the message once; all other outboxes stay as they were |
| Ws.WsServer.BroadcastToBotSubscribers | server/src/modules/minecraft/ws.ts:46-59 | exactly the connections subscribed to the bot whose send does not fail get the message |
| Ws.WsServer.BroadcastToAll | server/src/modules/minecraft/ws.ts:64-72 | every open connection whose send does not fail gets the message |
| Ws.WsServer.ForwardStateUpdate | server/src/modules/minecraft/ws.ts:79-84 | a manager state update reaches the bot's subscribers as a bot-state-update |
| Ws.WsServer.ForwardChat | server/src/modules/minecraft/ws.ts:86-96 | a bot's chat line reaches its subscribers as a chat bot-event with sender and text |
| Ws.WsServer.ForwardError | server/src/modules/minecraft/ws.ts:98-105 | a bot's error reaches its subscribers as an error bot-event with the message |
| Ws.WsServer.Subscribe | server/src/modules/minecraft/ws.ts:142-152 | every listed id joins the connection's set, known bot or not; the requester receives the current state of each listed bot that has one, in list order |
| Ws.WsServer.Unsubscribe | server/src/modules/minecraft/ws.ts:154-159 | only the listed ids leave only this connection's set; nothing is sent |
| Ws.WsServer.Message | server/src/modules/minecraft/ws.ts:132-192 | an unknown connection gets one "Connection not found" error and nothing else changes. Otherwise subscribe and unsubscribe as above, a ping gets one pong, and an action's dispatch result goes to the requester and then to the bot's subscribers |
| Ws.SubscribedRequesterGetsResultTwice | server/src/modules/minecraft/ws.ts:164-174 | a requester subscribed to the action's bot receives the result twice |
| Ws.BroadcastReachesExactlySubscribers | server/src/modules/minecraft/ws.ts:46-59 | a subscribed connection whose send works gets the message once; any other connection's outbox is unchanged |
| Executor.ExecuteMinecraftBehavior | server/src/modules/agents/orchestrator/behavior-executor.ts:146-533 | success exactly when the bot has a game client, the behaviour has a case of its own, and its effects complete without throwing |
| Executor.CooperativeDefaultBranch | server/src/modules/agents/orchestrator/behavior-executor.ts:522-527 | the first six cooperative behaviours have no case, so they never report success |
| Executor.CooperativeNamedBranch | server/src/modules/agents/orchestrator/behavior-executor.ts:500-519 | the last five cooperative behaviours succeed whenever their effects complete on a bot with a client |
| Executor.NonCooperatorBranches | server/src/modules/agents/orchestrator/behavior-executor.ts:158-527 | of the seven non-cooperating behaviours, exactly the first three fall to the default branch |
| Executor.CalculateInterval | server/src/modules/agents/orchestrator/behavior-executor.ts:601-609 | the period times the sum of the two rates is 120000 ms, i.e. 60000 over their average; it is positive for positive rates and not finite for a zero average |
| Executor.ProfileIntervals | server/src/modules/agents/orchestrator/behavior-executor.ts:601-609 | the two profiles act every 60000/4.5 and every 60000/3.5 ms |
| Executor.SelectBehavior | server/src/modules/agents/orchestrator/behavior-executor.ts:132-135 | a pick exists exactly when the list is non-empty, and it is an element of the list |
| Executor.SelectionReachesEvery | server/src/modules/agents/orchestrator/behavior-executor.ts:132-135 | every behaviour of the list is picked by some roll in [0, 1) |
| Executor.Without | server/src/modules/agents/orchestrator/behavior-executor.ts:593 | deleting a key removes exactly that key from the listing and keeps it duplicate-free |
| Executor.WithoutKeepsOrder | server/src/modules/agents/orchestrator/behavior-executor.ts:593 | deleting keeps the insertion order of the other keys: an absent key changes nothing, and a listed key of a duplicate-free listing is cut out where it stands |
| Executor.BehaviorExecutor.constructor | server/src/modules/agents/orchestrator/behavior-executor.ts:72 | no loops stored and none cleared |
| Executor.BehaviorExecutor.Initialize | server/src/modules/agents/orchestrator/behavior-executor.ts:77-93 | the agent's entry becomes the new timer with the profile's period; a new agent is appended to the listing; no timer is cleared |
| Executor.BehaviorExecutor.Stop | server/src/modules/agents/orchestrator/behavior-executor.ts:589-596 | a stored loop is cleared and its entry deleted; for an agent without one nothing changes |
| Executor.BehaviorExecutor.GetActiveExecutors | server/src/modules/agents/orchestrator/behavior-executor.ts:614-616 | exactly the running agents' ids, each once |
| Executor.BehaviorExecutor.IsRunning | server/src/modules/agents/orchestrator/behavior-executor.ts:621-623 | holds exactly when a loop is stored for the agent |
| Executor.InitializeThenStop | server/src/modules/agents/orchestrator/behavior-executor.ts:77-93 | initialising then stopping leaves the agent not running and clears exactly the timer just started |
| Executor.InitializeTwiceLeaks | server/src/modules/agents/orchestrator/behavior-executor.ts:81-89 | after two initialisations a stop clears only the second timer; the first one is never cleared |
| Executor.Notes | server/src/modules/agents/orchestrator/behavior-executor.ts:576 | a logged note always starts with "Executed " |
| Executor.TickGate | server/src/modules/agents/orchestrator/behavior-executor.ts:98-111 | a tick acts exactly when the bot exists and the stored agent exists and is active, and it then acts on the stored record |
| Executor.TickBehavior | server/src/modules/agents/orchestrator/behavior-executor.ts:113-117 | an acting tick picks a behaviour of the profile when it has any, and reports success only for a named behaviour that completed on a bot with a client |
| Executor.ExecuteBehavior | server/src/modules/agents/orchestrator/behavior-executor.ts:98-126 | a skipped tick changes nothing; an acting tick logs exactly one action, with the pick and its flag, and raises that agent's count by one, stamping the time |
| Executor.TickKeepsCountsInSync | server/src/modules/agents/orchestrator/behavior-executor.ts:119-126 | if every stored count equals the agent's number of logged actions, it still does after a tick |
| Mining.FaceIsUnitAxis | server/src/modules/minecraft/bot/actions/mining.actions.ts:53-63 | every face maps to a vector with exactly one component ±1 and the others 0 |
| Mining.OppositeFacesNegate | server/src/modules/minecraft/bot/actions/mining.actions.ts:55-60 | top/bottom, north/south and east/west map to negated vectors |
| Mining.FaceOffsetsDistinct | server/src/modules/minecraft/bot/actions/mining.actions.ts:53-63 | distinct faces map to distinct vectors |
| Mining.DigHandler | server/src/modules/minecraft/bot/actions/mining.actions.ts:69-117 | no block and air are refused with their messages and no dig call; otherwise the block is dug. A thrown error becomes a failure with its message, and success reports the block's name and position |
| Mining.PlaceBlockHandler | server/src/modules/minecraft/bot/actions/mining.actions.ts:123-168 | a missing reference block is refused without placing. Any found block is placed against along the face's vector; a thrown error becomes a failure with its message, and success names the face and position |
| Mining.OppositePlacements | server/src/modules/minecraft/bot/actions/mining.actions.ts:152-155 | placing against opposite faces of a block asks for opposite offsets |
| Profiles.CooperativeShape | server/src/modules/agents/profiles/cooperative.profile.ts:10-51 | the profile is well formed (positive rates in order, an ignore rate in [0, 1], ordered response delays, some behaviour); its rates are 3 and 6 per minute, it ignores nothing, and it has eleven behaviours |
| Profiles.NonCooperatorShape | server/src/modules/agents/profiles/non-cooperator.profile.ts:10-46 | the profile is well formed in the same sense; its rates are 2 and 5 per minute, it ignores half of all requests, and it has seven behaviours |
| Format.Decompose | client/src/lib/utils/format.ts:10-12 | for a non-negative input, hours ≥ 0, minutes and seconds in 0..59, and they add up to the whole seconds of the input |
| Format.DurationParts | client/src/lib/utils/format.ts:14-17 | between one and three parts |
| Format.FormatDurationRoundTrip | client/src/lib/utils/format.ts:9-20 | for a non-negative input the parts read back as its whole seconds |
| Format.FormatDurationInjective | client/src/lib/utils/format.ts:9-20 | two non-negative inputs with the same text have the same whole seconds |
| Format.PartsAreWords | client/src/lib/utils/format.ts:15-19 | no part is empty or holds a space, so the single-space join separates them |
| Format.PartsShown | client/src/lib/utils/format.ts:14-17 | the units appear in the order h, m, s: hours and minutes exactly when positive, seconds when positive or when nothing else is shown |
| Format.FormatDurationNonEmpty | client/src/lib/utils/format.ts:17-19 | the text always holds at least a count and its unit letter |
| Format.FormatDurationZero | client/src/lib/utils/format.ts:17 | zero seconds read "0s" |
| Format.FormatDurationExamples | client/src/lib/utils/format.ts:5-20 | 125 reads "2m 5s" and 3661 reads "1h 1m 1s" |
| Wizard.WizardState.constructor | client/src/features/test-creation/hooks/use-wizard.ts:14-15 | the wizard opens on index 0 |
| Wizard.WizardState.CurrentStep | client/src/features/test-creation/hooks/use-wizard.ts:17 | the step at the index, and nothing when the index is off the list |
| Wizard.WizardState.IsFirst | client/src/features/test-creation/hooks/use-wizard.ts:18 | holds exactly at index 0 |
| Wizard.WizardState.IsLast | client/src/features/test-creation/hooks/use-wizard.ts:19 | holds exactly at index n − 1 |
| Wizard.WizardState.Progress | client/src/features/test-creation/hooks/use-wizard.ts:20 | for n > 0 the progress times n is (index + 1) · 100, and it is 100 at the last step; with no steps it is not finite (Infinity at index 0, NaN once `next` has moved the index to −1), which the model gives as nothing |
| Wizard.WizardState.Next | client/src/features/test-creation/hooks/use-wizard.ts:22-24 | the index becomes min(i + 1, n − 1); a valid index stays valid and stays put at the last step, so `isLast` stays true there |
| Wizard.WizardState.Prev | client/src/features/test-creation/hooks/use-wizard.ts:26-28 | the index becomes max(i − 1, 0); a valid index stays valid and stays put at 0, so `isFirst` stays true there |
| Wizard.WizardState.GoTo | client/src/features/test-creation/hooks/use-wizard.ts:30-37 | the index becomes k exactly when 0 ≤ k < n, and is unchanged otherwise |
| Wizard.NextThenPrev | client/src/features/test-creation/hooks/use-wizard.ts:22-28 | from any step before the last, next then prev goes back to the same step |
| Colors.GetTestStatusColor | client/src/lib/utils/colors.ts:16-25 | destructive exactly for failed, default exactly for executing/completing/completed, outline exactly for created/cancelled |
| Colors.GetAgentStatusColor | client/src/lib/utils/colors.ts:27-34 | destructive exactly for error, default exactly for active, outline exactly for idle/terminated |
| Colors.GetBotStatusColor | client/src/lib/utils/colors.ts:36-42 | destructive exactly for error, default exactly for connected/spawned, secondary exactly for connecting |
| Colors.ProfileInfoKeys | client/src/lib/utils/colors.ts:57-85 | every profile name has a display entry, and every entry's key is a profile name |
| Schemas.ParseProfile | client/src/lib/schemas/test.schemas.ts:8-15 | a profile text is accepted exactly when it names one of the six profiles |
| Schemas.ProfileRoundTrip | client/src/lib/schemas/test.schemas.ts:8-15 | each profile's name parses back to it, and there are six distinct profiles |
| Schemas.ProfileIssues | client/src/lib/schemas/test.schemas.ts:25-28 | an unknown-profile issue is reported for an index exactly when that entry names no profile |
| Schemas.IssuesExactlyWhenInvalid | client/src/lib/schemas/test.schemas.ts:22-53 | a request has no issue exactly when every field holds its bound. That is a known scenario, a non-empty model, a non-empty list of known profiles, duration 30..3600, polling 1000..30000, intensity 0..1, and a server with host, version and port 1..65535; the last five bounds apply only when the field is present |
| AgentProfiles.IndexOf | client/src/features/test-creation/components/AgentProfiles.tsx:55 | −1 exactly when the profile is absent, and otherwise the position of its first occurrence |
| AgentProfiles.Toggle | client/src/features/test-creation/components/AgentProfiles.tsx:53-62 | a selected profile's first occurrence is cut out. An absent one is appended under five and ignored at five. The input is left alone, at most five stay at most five, no duplicates stay none, and no other profile changes membership |

## Left out

- The connection manager: its source is not part of this model; it is an input map from bot id to status, client presence and state.
- Timers, promises and event emitters: each timer tick and client event is an explicit method call. `setInterval` handles are the `timerId` parameter, and `clearInterval` is recorded in `cleared`.
- Asynchrony: `dispatchAction` and the handlers run to completion inside the call that starts them, so interleavings of concurrent dispatches are not modelled.
- Clock and randomness: `Date.now`, `toISOString` and `Math.random` are parameters. ISO timestamps are integer milliseconds, and a random draw is a `roll` in [0, 1).
- The random `actionId` of a logged behaviour is not modelled.
- Floating point: numbers are exact rationals. There is no NaN or infinity, except where a division by zero is an explicit case (`Executor.Interval.NotFinite`, `Wizard.WizardState.Progress` as nothing).
- Observer.Fixed1: `toFixed(1)` is modelled on the exact decimal value, halves rounded away from zero. Rounding on the nearest binary double (so 0.05 may render as "0.1" or "0.0") is not captured.
- Mining.DigHandler: the text of a coordinate in messages is a `show` parameter, because JavaScript's number-to-text conversion is not modelled.
- Mining.PlaceBlockHandler: same `show` parameter for coordinates.
- The world effects of behaviours (looking, walking, digging, chatting, the trigonometric steering) are reduced to "completed" or "threw".
- The world effects of the dig and place calls are likewise reduced to "returned" or "threw".
- The movement, combat, interaction and chat handler files are not modelled; only the registration of their handlers is.
- Executor.ExecuteBehavior: the profile lookup `getProfile` is not modelled; the resolved profile is a parameter.
- Executor.BehaviorExecutor.Initialize: the same `getProfile` lookup of `agent.profile` is not modelled; the resolved profile is a parameter that nothing ties to the agent.
- Profiles: a profile keeps only what the orchestration reads. The `description` and `behaviorRules` fields of each profile are left out, and the nested `actionFrequency` and `responsePatterns` records are flattened into top-level fields, with `responseDelay: {min, max}` becoming `responseDelayMin` and `responseDelayMax`.
- Executor.ExecuteBehavior: repository failures are not modelled; the interval's try/catch would swallow them, and the repository is a class whose calls succeed.
- Executor.ExecuteBehavior: the repository's find and update are modelled as reads and writes of an in-memory map.
- Ws.WsServer.Message: sends to the requester are taken to succeed. The `.catch` branch is not modelled, because the dispatcher always returns a result.
- Ws.WsServer.Message: message bodies are already-decoded values; the framework's rejection of malformed bodies is not modelled.
- Logging (`console.log`, `console.warn`, `console.error`) is left out.
- Model: the framework's schema machinery is not modelled. Each schema is a predicate or parser over the decoded value, and types other than the bounded ones are taken as already checked.
- Schemas.IssuesExactlyWhenInvalid: the library's type errors (a non-number duration, for example) are not modelled; fields arrive with their declared types.
- Schemas.IssuesExactlyWhenInvalid: the library's ordering and wording of issues are not modelled, beyond the custom messages in `Schemas.IssueMessage`.
- Wizard.WizardState: React's re-render and stale-closure semantics are not modelled; each navigation call updates the index at once.
- AgentProfiles.Toggle: only `toggle` is modelled; `field.onChange` is the returned sequence, and the rest of the component is display code.
- The locale- and clock-based formatting helpers (`formatTime`, `formatDate`, `formatNumber`, `getElapsedSeconds`) are not modelled.
- Discord, persistence, HTTP routes and the React pages are outside the modelled core.

## Behaviour of the source kept as written

Each of these follows from the code and is modelled faithfully. None is
recorded as a defect.

- `StateObserver.Tick` and `Observer.RoundingBoundaries`: position keys round to tenths, so some jitter of 0.02 blocks changes the key. A coordinate just below zero keeps its minus sign.
- `BotInstance.End` and `BotInstance.ClientError`: after spawning, the one-shot connection listeners are still armed alongside the in-game ones. An end or error is therefore forwarded twice.
- `BotInstance.End`: an end of connection does not drop the client, so a later `connect` is rejected as already connected. An end before spawning never settles the connect promise.
- `BotInstance` after an end: a bot can report a position while its status is disconnected.
- `Executor.InitializeTwiceLeaks`: initialising an agent twice replaces its stored interval without clearing the first.
- `Ws.SubscribedRequesterGetsResultTwice`: a requester subscribed to the action's bot receives the result twice.
- `Executor.ExecuteBehavior`: the behaviour list and the bot come from the agent record the loop was started with, not the re-read one. A pick from an empty list is undefined and falls to the default branch, and the note then reads "Executed undefined".
- `Executor.ExecuteMinecraftBehavior` does not check that the bot is spawned, only that it has a game client.
- `Mining.PlaceBlockHandler` places against any found block, air included.
- `Schemas.IssuesExactlyWhenInvalid`: the port bound accepts non-integral numbers.
- `Wizard.WizardState.Next`: with no steps, next moves the index to −1.
