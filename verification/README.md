# cosmoguard, verified

cosmoguard is a firewall and cache in front of blockchain nodes. This project models the parts of it
that hold state across requests and proves what they promise:

* the **WebSocket subscription multiplexer**: many clients share a few upstream connections, and four
  layers of maps (subscription table, pool, connection managers, generated ids) have to stay in step
  while goroutines interleave, upstream calls fail and connections drop;
* the **JSON-RPC engine**: rules sorted by priority, the three decision loops (one request over HTTP, a
  batch over HTTP, one request over a WebSocket), the partition of a batch and the way replies find
  their request again, and the response cache that all three share;
* the **replayable request body**, the recording response writer and the HTTP response cache.

`dafny verify dfyconfig.toml` checks everything.

## How it is modelled

The program's mutable objects are classes with its fields, and every method is proved against a
specification on values: `SubscriptionManager`, `UniqueID`, `CosmosConn`, `EthConn`, `UpstreamPool`,
`Broker`, `JsonRpcRule`, `ResponseCache`, `JsonRpcResponses`, `JsonRpcHandler`, `JsonRpcWebSocketProxy`,
`ReusableReader`, `ResponseWriterWrapper`, `HttpProxy`. What the environment does during a call is a
parameter of the call: whether a send fails, a reply comes or the wait times out (`Net`), which random
numbers are drawn, whether a cache entry is missing or vanishes between test and read (`Fault`), whether
a write to the cache or to a WebSocket client fails, what a pattern of the glob library accepts, how a
request is hashed, what the backend writes.

A pool holds connections of either kind, Cosmos or Ethereum (`Upstream.Manager`).

Concurrency is a step system (`Machine.dfy`). The goroutine that holds `upstreamSubMux` has a program
counter (`stage`); removals outside the mutex and ordinary requests are further goroutines, as many as
wanted; the node answers what it owes in any order, refuses, notifies or stays silent; a reader looks
up the channel for a reply in one step and hands the reply over in another; connections drop and
reconnect. A schedule is any list of steps, a step that is not enabled being skipped. The Cosmos and
the Ethereum manager are two settings of one system.

`Leaks.dfy` (nothing is forgotten or torn down under a client), `Registry.dfy` (table, pool and what
connections have of them), `Agreement.dfy` (all layers equal), `Ownership.dfy` (ids), `Intent.dfy` (what
clients asked for), `Requests.dfy` (which requests that were), `Wire.dfy` (whose replies), `Answers.dfy`
(which messages), `Notices.dfy` (notifications) and `Wedges.dfy` (blocked readers) hold the invariants,
`Multiplexer.dfy` the theorems over all schedules, `Progress.dfy` that the mutex can be released,
`RoundTrip.dfy` what uninterrupted calls do and undo, `Recovery.dfy` when a dropped Cosmos connection comes
back, `Resets.dfy` what becomes of subscriptions that an Ethereum reset forgets, `Limits.dfy` the cases
where the code does not keep the theorems, each with its exact condition, `Witness.dfy` that the assumptions
can be met together. A schedule is

* *fresh* if no new subscription gets an id, drawn or assigned by the node, that a subscription in the
  table has;
* *intact* if no Ethereum connection is reset while it holds subscriptions; every Cosmos schedule is;
* *sound* if no re-submission fails; every Ethereum schedule is. `Multiplexer.SoundIsFresh` proves that
  over Cosmos the id generator then gives freshness by itself;
* *quiet* if no id is drawn on a connection whose node may still send something under it: an answer
  that it owes, or notifications of a subscription whose acknowledgement came too late;
* *distinct* if no Ethereum node assigns an id that is in use on the connection; every Cosmos schedule is;
* *orderly* if the requests of one client, its disconnect included, are served one after another, as
  the loop that reads the client's connection does (`pkg/cosmoguard/ws_proxy.go:82-102`).

`Broker.dfy` is the same broker call by call, as classes, for calls that are not interrupted. The three
JSON-RPC loops run at the same time on the shared cache in `Interleaving.dfy`, one cache access a step;
`Alone.dfy` proves that uninterrupted they end as the methods of `Handlers.dfy` and `WebSocket.dfy` do.

Taken as one atomic step: drawing an id (`UniqueID.ID` loads and stores separately), receiving a reply
and deleting its table entry, and each access to a map. Pool connections are named by their index.

## What the code does differently from its documentation

* The documented default priority is 1000, but rules are sorted before defaults are filled in, so a rule
  without a priority counts as 0 and goes first: `Priority.DocumentedOrderIff`, `Priority.UnsetPriorityGoesFirst`.
* `cache.enable` defaults to false and is documented to switch caching off for a rule. The single HTTP
  loop and the WebSocket loop do not look at it, and a batch reads the cache even for rules without cache
  settings: `Transparency.StoreAlikeIff`, `Transparency.ReadTheCacheAlikeIff`.
* A rule with a whole number among its parameters matches no JSON request with parameters of the same
  kind, named or positional, because YAML gives an integer and JSON a float; it still matches every
  request with parameters of the other kind: `Rules.WholeNumbersNeverMatch`.
* A request whose timer fires after the reader has looked its channel up, and before the reader has
  handed the reply over, blocks the reader of that connection for ever: `Multiplexer.ReaderIsWedgedIff`,
  `Multiplexer.WedgedForever`, `Multiplexer.OneTimeoutCanWedge`.
* A Cosmos subscribe that times out and is acknowledged late leaves the node subscribed; a request that
  draws the same id later gets a notification for its reply: `Limits.LateSubscribeMisleads`,
  `Limits.DrawIsSafeIff`.
* An Ethereum connection resets its maps before it re-submits from them: `Limits.EthReconnectAgreesIff`,
  `Upstream.EthConn.Reconnect`. Re-submission over Cosmos waits for a reply on the goroutine that would
  have to read it, so a connection that drops while it holds a subscription never reads again:
  `Limits.ResubmissionCannotSucceed`, `Recovery.DeadForGood`, `Recovery.DroppedComesBackIff`. On failure
  it releases an id that is still registered: `Limits.FailedResubmissionKeepsOwnershipIff`,
  `Limits.OneFailedResubmissionIsEnough`.
* The Cosmos manager takes a reply for which nobody waits any more for a notification if its id is
  registered: `Multiplexer.BroadcastIff`, `Limits.LateReplyIsBroadcast`.
* Subscriptions that an Ethereum reset forgets stay in the table: their clients, and those that join them,
  are sent nothing until all have left: `Resets.ForgottenIsSilent`, `Resets.JoinsTheForgotten`,
  `Resets.TakenOutWhenAllHaveLeft`.
* A rule with cache settings that allows subscribe requests over the WebSocket has the reply to the first
  one replayed to the next client, which is told success and is not subscribed:
  `WebSocket.NextSubscribeIsReplayedIff`, `WebSocket.ReplayedIsNotSubscribed`.
* A Cosmos node that refuses a subscribe is treated as if it had obeyed, and the client follows a query
  that is never served: `Limits.ServedIffObeyed`. A refused unsubscribe counts as done as well:
  `RoundTrip.NodeRestoredIff`.
* Actions other than allow and deny stop a batch at the matching rule and are passed over by the other
  two loops: `Priority.LoopsAgreeIff`.
* A body that is no JSON-RPC message is stored and replayed as a blank reply for rules with
  `cacheEmptyResult`: `Transparency.FailureIsReplayedIff`.
* The round-robin index is -1 on call number 2^32 of a pool with more than one connection:
  `Pool.PickInRangeIff`.

## Model

| member | source | states |
|---|---|---|
| Multiplexer.LayersAgree | pkg/cosmoguard/ws_broker.go:85-199 | After any fresh and intact schedule, whenever the mutex is free: table, pool and connections hold the same subscriptions, both map directions are inverse, the client table has exactly those ids, and each id is in exactly one connection, the one that the pool records |
| Multiplexer.SoundIsFresh | pkg/util/id_gen.go:14-23 | Over Cosmos, without failed re-submissions, the generator's own test makes every drawn id fresh |
| Multiplexer.NoSecondUpstreamSubscription | pkg/cosmoguard/ws_upstream_pool.go:77-80 | In every fresh schedule, resets included, the pool's early return and the connection's refusal of an existing subscription are unreachable from the broker |
| Multiplexer.TableIsTheClientsWill | pkg/cosmoguard/ws_broker.go:85-199 | At every moment of a fresh and orderly schedule, resets included, a client follows a query, under an id, exactly when its last effective request about that query, as the client worded it, was a subscribe with that id; and each recorded request is one that this client made in the schedule, with that query and that id |
| Multiplexer.StepsRefineTheRelation | pkg/cosmoguard/ws_broker.go:85-199 | In fresh and orderly schedules each step changes the relation (client, query) to id as the abstract operation does: registering sets one pair, a removal takes out the pair that its client named, every other step, upstream failures and resets included, changes nothing |
| Multiplexer.FailedSubscribeUndone | pkg/cosmoguard/ws_upstream_cosmos.go:185-198 | In any state of any schedule, the steps of a subscribe up to its failed send or its timeout leave table, pool, connection maps, removals and history as they were; the failure frees the mutex, and no generated id but the request's own changes |
| Multiplexer.UnsubscribeAllLeavesNothing | pkg/cosmoguard/ws_broker.go:173-199 | When unsubscribe_all or a disconnect comes to its end without failure in a fresh and orderly schedule, whatever ran in between, its client follows nothing |
| Multiplexer.UnsubscribedOnlyWhenEmpty | pkg/cosmoguard/ws_broker.go:154-168 | In every schedule, from the decision to unsubscribe upstream until the entry is gone, nobody follows the subscription and nobody can join it |
| Multiplexer.NothingLeaks | pkg/cosmoguard/ws_broker.go:126-199 | In every schedule, with the mutex free, a registered subscription without clients has a remover that will still look at it, or an upstream unsubscribe of it has failed |
| Multiplexer.AtRestEverySubscriptionIsFollowed | pkg/cosmoguard/ws_broker.go:126-199 | In every fresh schedule, with no removal under way and no failure, every subscription of every connection has a client |
| Multiplexer.GeneratedIdsAreOwned | pkg/util/id_gen.go:14-27 | After every Ethereum schedule and every sound Cosmos schedule the ids marked generated are exactly those of requests in flight and, for Cosmos, of live subscriptions, and no id has two owners; a subscription is on one connection at most, over Ethereum in fresh schedules |
| Multiplexer.RepliesAreTheCallersOwn | pkg/cosmoguard/ws_upstream_cosmos.go:88-167 | Over all quiet interleavings, reply orders and connections, failed re-submissions and resets included: for every reply returned to a caller some step of the schedule is the node's answer to that caller's request, and what was returned is the message of that step with nothing but its id replaced, by the caller's own |
| Answers.HandReturns | pkg/cosmoguard/ws_upstream_cosmos.go:144-150 | In any state, handing a message over to a caller returns exactly one reply, the message in hand under the caller's id, and leaves every other connection alone; handing one to the holder of the mutex returns nothing |
| Answers.CallsAreSettledOnce | pkg/cosmoguard/ws_upstream_cosmos.go:129-167 | After every schedule the requests sent for callers are as many as the replies returned, the timeouts and the requests still in flight together: none is answered twice and none is lost |
| Multiplexer.ReaderIsWedgedIff | pkg/cosmoguard/ws_upstream_cosmos.go:106-113 | After any quiet schedule a reader is blocked for ever exactly when some step of it was the timeout of the goroutine to which that reader was handing a message |
| Multiplexer.WedgedForever | pkg/cosmoguard/ws_upstream_cosmos.go:64-75 | A blocked reader stays blocked in every continuation and takes no message any more |
| Multiplexer.OneTimeoutCanWedge | pkg/cosmoguard/ws_upstream_cosmos.go:144-159 | A concrete quiet schedule of three steps blocks a reader, over Cosmos and over Ethereum |
| Multiplexer.NotificationsReachTheFollowers | pkg/cosmoguard/ws_broker.go:201-222 | After any fresh, quiet, distinct and orderly schedule, failed re-submissions and resets included, a notification under a registered id makes exactly one send to each client whose last effective request about the query was a subscribe, the node's message with the id of that request, and none to anybody else |
| Multiplexer.BroadcastIff | pkg/cosmoguard/ws_upstream_cosmos.go:106-126 | After any quiet schedule a step sends something to subscribers exactly when it brings a notification under a registered id or, over Cosmos, a reply for which nobody waits under a registered id; it is then one broadcast of that message to the clients registered under the id, to each with its own id |
| Multiplexer.NothingElseIsBroadcast | pkg/cosmoguard/ws_upstream_cosmos.go:106-126 | In every quiet schedule, sound if it is a Cosmos one, no late reply comes under a registered id: only a notification under a registered id sends anything to subscribers |
| Leaks.StepTidy | pkg/cosmoguard/ws_broker.go:126-199 | Every step of every schedule keeps: a registered subscription that nobody follows is about to be looked at or has failed, and nobody follows one that is being torn down |
| Leaks.FailsOnlyUpstream | pkg/cosmoguard/ws_broker.go:154-168 | In any state, a subscription is recorded as failed only by an upstream unsubscribe of that subscription that fails |
| Requests.StepSaid | pkg/cosmoguard/ws_broker.go:85-199 | Every step keeps: what is recorded of a client, and what a subscribe, a removal or the remove-all loop is about to record, was asked for by that client in an earlier step, a removal beginning with "0x" naming an id and any other a query |
| Requests.LoopEndsOnly | pkg/cosmoguard/ws_broker.go:173-199 | In any state, whoever runs in between, the remove-all loop goes on for its client, drops it from its ids one by one, and ends only when it has come to all of them or an upstream unsubscribe fails |
| Witness.FirstClientIsServed | pkg/cosmoguard/ws_broker.go:85-222 | For either kind of connection, any client, query and ids: a schedule that is fresh, intact, sound, quiet, distinct and orderly, in which the client subscribes and the node's first notification reaches it under its id, and nobody else |
| Registry.StepReg | pkg/cosmoguard/ws_broker.go:85-199 | Every fresh step, failures and resets included, keeps: the table is consistent, the pool has exactly its subscriptions, and a connection has none that the pool does not place there |
| Progress.MutexCanBeReleasedIff | pkg/cosmoguard/ws_broker.go:85-199 | After any fresh schedule some continuation frees the mutex exactly when a subscribe, if one holds it, has a connection to go over |
| Progress.CanRelease | pkg/cosmoguard/ws_broker.go:85-199 | The holder can come to the end of its section, loop over subscriptions included, by its own steps and timeouts alone, even if no message ever arrives |
| Agreement.StepKeeps | pkg/cosmoguard/ws_broker.go:85-199 | Every enabled fresh and intact step of every goroutine, the node and the network keeps the agreement of table, pool and connections |
| Agreement.RunKeeps | pkg/cosmoguard/ws_broker.go:85-199 | The invariant holds after every fresh and intact schedule from the empty state |
| Ownership.StepOwns | pkg/cosmoguard/ws_upstream_cosmos.go:162-238 | Every step over Ethereum, and every sound step over Cosmos, keeps: the generated ids are the owned ones and no id has two owners |
| Ownership.UndrawnIsFresh | pkg/util/id_gen.go:17-21 | Between critical sections an id that the generator does not hold is unknown to table, pool and every connection |
| Intent.StepWill | pkg/cosmoguard/ws_broker.go:85-199 | Every fresh and orderly step, resets included, keeps: the table is what the clients' worded requests say, removers drop what their clients named, and the remove-all loop has all that is left before it |
| Wire.StepWire | pkg/cosmoguard/ws_upstream_cosmos.go:88-160 | Every quiet step, failed re-submissions and resets included, keeps: an answer in a reader's hands, or due to be looked up, is what its waiter asked for, and no notification finds a channel |
| Notices.StepNotices | pkg/cosmoguard/ws_upstream_cosmos.go:115-124 | Every step that is distinct and, over Cosmos, fresh, failed re-submissions and resets included, keeps: what the node notifies under a registered or arriving id belongs to that subscription, and it owes no subscribe under it; where ids are owned it owes nothing under it |
| Wedges.StepWedgesIff | pkg/cosmoguard/ws_upstream_cosmos.go:107-113 | In any schedule, a step leaves a reader blocked for ever exactly when it was before, or the goroutine it is handing to times out, or it looks up a channel that was left behind |
| Wedges.FailedSendLeavesBehind | pkg/cosmoguard/ws_upstream_cosmos.go:131-142 | In any state, a request whose send fails after its channel has been stored leaves the channel behind with nobody waiting, and its id free to be drawn again |
| Wire.NotifyWire | pkg/cosmoguard/ws_upstream_eth.go:89-113 | A notification under a registered id becomes one broadcast for that id on either kind of connection, and one under any other id is dropped |
| Limits.ReconnectsKeepTheMaps | pkg/cosmoguard/ws_upstream_cosmos.go:240-254 | Any number of drops, reconnects and re-submissions of Cosmos connections, failing or not, with any traffic between, leaves table, pool and all connection maps exactly as they were |
| Limits.ResubmissionCannotSucceed | pkg/cosmoguard/ws_upstream_cosmos.go:58-64 | Once a Cosmos reader has sent a re-submission, whether or not its subscription is still listed, no schedule lets it read anything until that re-submission fails |
| Recovery.DeadForGood | pkg/cosmoguard/ws_upstream_cosmos.go:49-64 | A Cosmos connection that is lost and has a subscription to re-submit never reads a message again in any schedule, hands none over unless it holds one already, and keeps that subscription registered for ever |
| Recovery.DroppedComesBackIff | pkg/cosmoguard/ws_upstream_cosmos.go:240-254 | In any state that a fresh schedule reaches, some continuation lets a Cosmos connection that drops, while reading or while handing a message over, read again exactly when its reader is not blocked for ever and it holds no subscription, or only one whose unsubscribe the node has answered |
| Recovery.LostConnectionsAreSilent | pkg/cosmoguard/ws_upstream_cosmos.go:64-75 | After every schedule the node behind a lost connection owes nothing over it and notifies of nothing, whatever has been sent since |
| Limits.FailedResubmissionKeepsOwnershipIff | pkg/cosmoguard/ws_upstream_cosmos.go:194-197 | A failed re-submission keeps id ownership exactly when the id names no subscription of any connection any more and no request in flight |
| Limits.FailureWhileListedBreaksOwnership | pkg/cosmoguard/ws_upstream_cosmos.go:194-197 | While the re-submitted subscription is still listed a failure always breaks ownership |
| Limits.SubscribeRun | pkg/cosmoguard/ws_broker.go:85-124 | Run without interruption the steps of a subscribe, over Cosmos or Ethereum, end with one subscription more in table, pool and one connection, one client registered, over Cosmos one id owned, and the node serving it if it obeyed |
| Limits.ServedIffObeyed | pkg/cosmoguard/ws_upstream_cosmos.go:193-202 | After an uninterrupted subscribe over Cosmos the node serves the query exactly when it obeyed, while client and connection hold the subscription either way |
| RoundTrip.UnsubscribeRun | pkg/cosmoguard/ws_broker.go:126-171 | Run without interruption, the last follower's unsubscribe, over Cosmos or Ethereum, takes the subscription out of table, pool and connection together, and its Cosmos id out of the generator |
| RoundTrip.SubscribeThenUnsubscribe | pkg/cosmoguard/ws_broker.go:85-171 | Over Cosmos or Ethereum, subscribing to a new query and unsubscribing again restores every layer and the generator exactly, whether the node obeys or refuses |
| RoundTrip.NodeRestoredIff | pkg/cosmoguard/ws_upstream_cosmos.go:213-226 | The node is then back where it was exactly when it did not refuse to stop what it had started |
| RoundTrip.LeaveRun | pkg/cosmoguard/ws_broker.go:126-160 | Run without interference, a removal takes the client out of the subscription that it named, by query or by id, records that, and goes on to the upstream unsubscribe exactly when nobody is left |
| RoundTrip.LeaveNothingRun | pkg/cosmoguard/ws_broker.go:133-146 | A removal of what the client does not follow changes nothing at all |
| RoundTrip.AllRun | pkg/cosmoguard/ws_broker.go:173-199 | Run without interference over any number of subscriptions that others follow as well, the remove-all loop takes the client out of every one, keeps every other client and frees the mutex |
| RoundTrip.OverlapLosesAnotherQuery | pkg/cosmoguard/ws_broker.go:137-148 | Why schedules must be orderly: with overlapping requests of one client a concrete schedule takes it from a query that its last request subscribed to |
| Limits.SharedIdBreaksTheTable | pkg/cosmoguard/ws_subscriptions.go:25-34 | Subscribing under an id that is still registered leaves two queries bound to one id |
| Limits.OneFailedResubmissionIsEnough | pkg/cosmoguard/ws_upstream_cosmos.go:194-197 | A concrete schedule: one subscribe, one dropped connection and a second subscribe break the table |
| Limits.LateReplyIsBroadcast | pkg/cosmoguard/ws_upstream_cosmos.go:115-124 | Whenever a registered Cosmos id is not held by the generator, a request that draws it and times out has its reply broadcast to the subscribers |
| Limits.EthReconnectAgreesIff | pkg/cosmoguard/ws_upstream_eth.go:58-59 | After an Ethereum reconnect the layers still agree exactly when the connection held no subscription |
| Resets.ResetForgets | pkg/cosmoguard/ws_upstream_eth.go:257-264 | A reset leaves every subscription that the connection had in the table and on no connection |
| Resets.ForgottenIsSilent | pkg/cosmoguard/ws_upstream_eth.go:89-113 | In every fresh continuation, until it is taken out of the table, a forgotten subscription is on no connection and nothing is broadcast under its id |
| Resets.JoinsTheForgotten | pkg/cosmoguard/ws_broker.go:94-118 | A subscribe to the query of a forgotten subscription joins it without asking the node |
| Resets.TakenOutWhenAllHaveLeft | pkg/cosmoguard/ws_broker.go:154-168 | It is taken out only when nobody follows it, and the next subscribe to its query then goes upstream |
| Limits.DrawIsSafeIff | pkg/cosmoguard/ws_upstream_cosmos.go:162-167 | A request under a drawn id can be handed nothing but its own answer, whatever arrives next under that id, exactly when the node owes no other answer under it and, over Cosmos, has no subscription under it |
| Limits.LateSubscribeMisleads | pkg/cosmoguard/ws_upstream_cosmos.go:106-124 | A concrete schedule: a subscribe times out, is acknowledged late, and the next request under its id is returned a notification |
| Subscriptions.AddValidIff | pkg/cosmoguard/ws_subscriptions.go:25-34 | Registering keeps the three maps consistent exactly when neither name is bound to something else |
| Subscriptions.RemoveValidIff | pkg/cosmoguard/ws_subscriptions.go:36-45 | Removing keeps them consistent exactly when the id is known or no subscription has the empty query |
| Subscriptions.RemoveUndoesAdd | pkg/cosmoguard/ws_subscriptions.go:25-45 | Removing a new registration gives back the table before it |
| Subscriptions.RemoveEmptyKeepsRelation | pkg/cosmoguard/ws_subscriptions.go:36-45 | Removing a subscription that nobody follows changes nothing for any client |
| Subscriptions.SubscriptionManager.AddSubscription | pkg/cosmoguard/ws_subscriptions.go:25-34 | The three maps become the registered table, with no clients |
| Subscriptions.SubscriptionManager.RemoveSubscription | pkg/cosmoguard/ws_subscriptions.go:36-45 | The three maps lose the id and its query; for an unknown id the entry of the empty query goes |
| Subscriptions.SubscriptionManager.SubscribeClient | pkg/cosmoguard/ws_subscriptions.go:55-61 | The client is registered under the id with its own message id, replacing an earlier one |
| Subscriptions.SubscriptionManager.UnsubscribeClient | pkg/cosmoguard/ws_subscriptions.go:63-69 | The client leaves that one subscription; an unknown id changes nothing |
| Subscriptions.SubscriptionManager.GetSubscriptions | pkg/cosmoguard/ws_subscriptions.go:80-93 | The result lists exactly the ids that the client follows, each once, whatever the order of traversal |
| Subscriptions.SubscriptionManager.SubscriptionEmpty | pkg/cosmoguard/ws_subscriptions.go:47-53 | True exactly when nobody follows the id, known or not |
| Ids.UniqueID.ID | pkg/util/id_gen.go:14-23 | The id was not live and is live now, all else as before; it is the first drawn candidate that was not live; the loop ends while fewer than 2^31 - 1 ids are live |
| Ids.UniqueID.Release | pkg/util/id_gen.go:25-27 | Exactly that id stops being live |
| Ids.SomeCandidateIsFree | pkg/util/id_gen.go:14-23 | With fewer live ids than candidates some candidate is free, by pigeonhole |
| Ids.NoCandidateIsFree | pkg/util/id_gen.go:14-23 | The bound is exact: as many live ids as candidates can leave none free |
| Ids.ItoaInjective | pkg/util/id_gen.go:16 | Different numbers print differently |
| Ids.AtoiItoa | pkg/util/id_gen.go:16 | Parsing a printed number gives it back |
| Upstream.CosmosConn.OnUpstreamMessage | pkg/cosmoguard/ws_upstream_cosmos.go:88-127 | A message with a string id is looked up under that string and one with a number under its decimal text; it goes to the request that waits there if one does, else to the subscription registered there if there is one, else nowhere; a message without id goes nowhere |
| Upstream.CosmosConn.Submit | pkg/cosmoguard/ws_upstream_cosmos.go:129-142 | Unless the send fails, the request goes on the wire under the id that is stored for it, otherwise unchanged |
| Upstream.CosmosConn.EchoIsRouted | pkg/cosmoguard/ws_upstream_cosmos.go:88-142 | A message that echoes the id last put on the wire goes to the request that was stored for it |
| Upstream.CosmosConn.MakeRequestWithID | pkg/cosmoguard/ws_upstream_cosmos.go:129-160 | The request goes out under the given id; the caller gets the reply under its own id, or an error; the entry of the request is gone except after a failed send |
| Upstream.CosmosConn.MakeRequest | pkg/cosmoguard/ws_upstream_cosmos.go:162-167 | The same under an id that was not live, and no id stays drawn on any outcome |
| Upstream.CosmosConn.Subscribe | pkg/cosmoguard/ws_upstream_cosmos.go:174-211 | Succeeds exactly when the query is new and a reply comes; then a subscribe for that query has gone out under a fresh id, and both maps and the generator gain that id; otherwise nothing changes |
| Upstream.CosmosConn.Unsubscribe | pkg/cosmoguard/ws_upstream_cosmos.go:213-238 | Succeeds exactly when a reply comes; then an unsubscribe for the query of the id has gone out, and both maps and the generator lose the id; otherwise nothing changes |
| Upstream.CosmosConn.ReSubmitSubscriptions | pkg/cosmoguard/ws_upstream_cosmos.go:240-254 | Both maps are as before in any case; a failure releases the id of one registered subscription |
| Upstream.EthConn.OnUpstreamMessage | pkg/cosmoguard/ws_upstream_eth.go:89-137 | A message with an id goes to the request that waits under that string, or under the decimal text of that number, one without goes to the subscription that its parameters name, each exactly when there is one |
| Upstream.EthConn.EchoIsRouted | pkg/cosmoguard/ws_upstream_eth.go:89-158 | A message that echoes the id last put on the wire of an open connection goes to the request that was stored for it |
| Upstream.EthConn.MakeRequestWithID | pkg/cosmoguard/ws_upstream_eth.go:139-175 | A closed connection refuses before anything is stored or sent; otherwise as for Cosmos |
| Upstream.EthConn.MakeRequest | pkg/cosmoguard/ws_upstream_eth.go:177-182 | The reply under the caller's id or an error, and no id stays drawn |
| Upstream.EthConn.Subscribe | pkg/cosmoguard/ws_upstream_eth.go:189-229 | On success an eth_subscribe for the query has gone out and both maps gain the id that the node chose; the request's own id is released on every outcome |
| Upstream.EthConn.Unsubscribe | pkg/cosmoguard/ws_upstream_eth.go:231-255 | On success an eth_unsubscribe for the id has gone out and both maps lose the id, otherwise nothing changes; no id stays drawn |
| Upstream.EthConn.ReSubmitSubscriptions | pkg/cosmoguard/ws_upstream_eth.go:266-280 | Succeeds exactly when nothing is registered, and never changes the maps: every registered query is refused as existing |
| Upstream.EthConn.Reconnect | pkg/cosmoguard/ws_upstream_eth.go:52-64 | After a reconnect both maps are empty and nothing has been re-submitted |
| Upstream.Manager.Subscribe | pkg/cosmoguard/ws_upstream.go:26-32 | Over a connection of either kind: succeeds exactly when the query is new to it and a reply comes over an open connection; a fresh id for Cosmos, the node's id for Ethereum, nothing changed on failure |
| Upstream.Manager.Unsubscribe | pkg/cosmoguard/ws_upstream.go:26-32 | Over a connection of either kind: succeeds exactly when a reply comes; then the maps lose the id, and for Cosmos the generator too |
| Pool.PickInRangeIff | pkg/cosmoguard/ws_upstream_pool.go:58-63 | The index is in range exactly when the 32-bit counter has not just wrapped, or there is one connection; else it is -1 |
| Pool.LoadIs | pkg/cosmoguard/ws_upstream_pool.go:58-63 | After k calls connection j has been chosen once a round, and once more if the round under way has reached it |
| Pool.LoadsAreBalanced | pkg/cosmoguard/ws_upstream_pool.go:58-63 | Before the wrap, no two connections differ by more than one call |
| Pool.EachOncePerRound | pkg/cosmoguard/ws_upstream_pool.go:58-63 | Before the wrap, any n consecutive calls choose each of n connections exactly once |
| Pool.UpstreamPool.GetConnection | pkg/cosmoguard/ws_upstream_pool.go:58-63 | The counter advances modulo 2^32 and the index is in range and that of the call's number |
| Pool.UpstreamPool.Subscribe | pkg/cosmoguard/ws_upstream_pool.go:73-96 | A known query returns its id and changes nothing; otherwise pool, one connection and generator gain the same fresh id together, or on failure none of them changes |
| Pool.UpstreamPool.Unsubscribe | pkg/cosmoguard/ws_upstream_pool.go:98-114 | Pool, the recorded connection and generator lose the id together, or on failure, or for an unknown id, none of them changes |
| Pool.UpstreamPool.MakeRequest | pkg/cosmoguard/ws_upstream_pool.go:65-71 | The caller gets the reply or error, and no subscription map or id changes |
| Broker.Broker.AddSubscription | pkg/cosmoguard/ws_broker.go:85-124 | Over pools of either kind. With a parameter object whose member "query" is a string, or positional parameters that begin with a string, that string is the query: it succeeds exactly when the query is known already or answered upstream; then the pair of client and query is set, under no id for eth_subscribe and the message's id otherwise, all other pairs are kept, and the client is told the query's subscription. With any other parameters it is an error. After an error nothing has changed |
| Broker.Broker.RemoveSubscription | pkg/cosmoguard/ws_broker.go:126-171 | The same strings name what is taken out: one that begins with "0x" a subscription, any other a query. A pair that is not there is an error without effect, as are other parameters; otherwise that pair alone leaves the relation even when the upstream call fails, and an error means exactly that the subscription stays behind with nobody |
| Broker.Broker.RemoveAllSubscriptions | pkg/cosmoguard/ws_broker.go:173-199 | On success all of the client's pairs and no others leave the relation; on failure a prefix of the list has left and the last visited subscription stays behind with nobody |
| Broker.Broker.OnSubscriptionMessage | pkg/cosmoguard/ws_broker.go:201-222 | One send to each registered client under its own id, to nobody else |
| Broker.Broker.HandleRequest | pkg/cosmoguard/ws_broker.go:34-40 | The reply under the client's id or an error; the relation is unchanged |
| Broker.Broker.HandleSubscription | pkg/cosmoguard/ws_broker.go:42-83 | The reply tells what happened to the relation, for each of the five methods, success and failure: an error with code -100, an empty result, true, or the subscription's id |
| Broker.ResolveFindsIff | pkg/cosmoguard/ws_broker.go:133-142 | An unsubscribe finds the subscription of a known query exactly when the query does not look like an Ethereum id, or is its own id |
| Broker.UnsubscribeUndoesSubscribe | pkg/cosmoguard/ws_broker.go:85-171 | Subscribing and unsubscribing again gives back the whole relation |
| Broker.AddedAtRest | pkg/cosmoguard/ws_broker.go:94-109 | A query and an id unknown to the table, added to table, pool and one connection, leave the layers in agreement |
| Broker.RemovedAtRest | pkg/cosmoguard/ws_broker.go:157-168 | Removing an id from table, pool and the recorded connection leaves the layers in agreement |
| Rules.JsonRpcRule.Compile | pkg/cosmoguard/rules.go:75-103 | The stored patterns are those of the configured strings, each under its key or printed index, and only those |
| Rules.JsonRpcRule.Match | pkg/cosmoguard/rules.go:105-181 | After compiling, true exactly when some method pattern accepts, or there is none, and every parameter of the rule is satisfied, whatever the order of traversal |
| Rules.WholeNumbersNeverMatch | pkg/cosmoguard/rules.go:117-180 | A rule with a whole number among its parameters matches a request that came as JSON exactly when the method matches and the request's parameters are of the other kind, for named and positional rules |
| Priority.FirstHitIsLeast | pkg/cosmoguard/config.go:147-154 | In any sorted list the first match is a match of least priority, and there is none exactly when nothing matches |
| Priority.DecisionIsOrderFreeIff | pkg/cosmoguard/config.go:147-150 | The decision is the same for every way to sort the rules exactly when the matching rules of least priority have the same action |
| Priority.LoopsAgreeIff | pkg/cosmoguard/jsonrpc_handler.go:406-484 | Batch and the other loops decide alike under every default action exactly when the first match allows or denies, or no such rule matches |
| Priority.LoopsAgree | pkg/cosmoguard/jsonrpc_handler.go:177-282 | With allow and deny only, the three loops decide alike for every rule list and request |
| Priority.DocumentedOrderIff | pkg/cosmoguard/config.go:120-183 | The sorted list is in the documented order exactly when no rule without a priority meets one with a priority between 0 and 1000 |
| Priority.UnsetPriorityGoesFirst | pkg/cosmoguard/config.go:147-150 | A deny rule without priority overrules an allow rule of priority 500 |
| Caching.StoringAnswersIsSoundIff | pkg/cosmoguard/jsonrpc_utils.go:98-104 | Storing the node's answers is sound exactly when requests with equal keys have equal answers |
| Caching.StoreIsSoundIff | pkg/cosmoguard/ws_proxy.go:189-202 | A reply may be stored under a request's key exactly when it is what the node answers to that request |
| Caching.ExpiryIsSound | pkg/cache/memory.go:55-66 | A cache stays sound whatever entries expire |
| Batch.JsonRpcResponses.GetPendingRequests | pkg/cosmoguard/jsonrpc_utils.go:185-193 | The requests without response, in order |
| Batch.JsonRpcResponses.GetFinal | pkg/cosmoguard/jsonrpc_utils.go:195-203 | The responses that there are, in order |
| Batch.JsonRpcResponses.AddResponse | pkg/cosmoguard/jsonrpc_utils.go:212-218 | One entry more at the end, its response under the request's id |
| Batch.JsonRpcResponses.Deny | pkg/cosmoguard/jsonrpc_utils.go:247-255 | One entry more at the end: an error 401 without result under the id of the request |
| Batch.JsonRpcResponses.Set | pkg/cosmoguard/jsonrpc_utils.go:229-245 | Scattering replies to the pending list by request identity gives the k-th waiting entry the k-th reply and touches no other entry |
| Batch.JsonRpcResponses.StoreInCache | pkg/cosmoguard/jsonrpc_utils.go:257-273 | The cache gains exactly the responses that their rule's settings let in, later entries winning, up to the first write that fails; success is reported exactly when none fails |
| Batch.PendingAt | pkg/cosmoguard/jsonrpc_utils.go:185-193 | A waiting entry is in the pending list at the number of waiting entries before it |
| Batch.AnswersAt | pkg/cosmoguard/jsonrpc_utils.go:195-203 | An answered entry is in the final list at the number of answered entries before it, and nothing else is |
| Handlers.JsonRpcHandler.HandleHttpSingle | pkg/cosmoguard/jsonrpc_handler.go:172-322 | Reply and new cache are those of the verdict of the first rule that matches and allows or denies, else of the default action, whatever the cache and upstream do, failing writes included; a refused client reads an error 401 without result under its id; when the body is the node's answer to the request a sound cache stays sound |
| Handlers.JsonRpcHandler.GetSingleUpstreamResponse | pkg/cosmoguard/jsonrpc_handler.go:324-355 | The message that upstream returned is stored as it is, unless it is an error, or without result, and the rule's settings exclude that, or the write fails; the switch `enable` plays no part |
| Handlers.JsonRpcHandler.HandleHttpBatch | pkg/cosmoguard/jsonrpc_handler.go:371-511 | Output, new cache and counters for every rule list, batch, cache, fault, failing write and upstream outcome; if upstream fails while something is pending the batch is an error and the cache is as before; each counter counts exactly the permitted, the refused and the cached requests |
| Transparency.CountersAddUp | pkg/cosmoguard/jsonrpc_handler.go:380-511 | For every rule list, batch, cache and fault the permitted and the refused add up to the batch, and what goes upstream are the permitted less the cache hits |
| Handlers.JsonRpcHandler.ServeInBatch | pkg/cosmoguard/jsonrpc_handler.go:380-484 | One request adds one entry: refused, replayed or waiting, by the first matching rule alone |
| Transparency.WaitsIff | pkg/cosmoguard/jsonrpc_handler.go:406-484 | A request of a batch waits for upstream exactly when it is permitted and not served from the cache; otherwise its response is the cached reply or the refusal |
| Transparency.ForwardedInOrder | pkg/cosmoguard/jsonrpc_handler.go:489-492 | What goes upstream are exactly the permitted uncached requests, each once, in request order: no denied request is forwarded |
| Transparency.OutputAnswersRequests | pkg/cosmoguard/jsonrpc_handler.go:498-506 | With one reply for each pending request, output i answers request i |
| Transparency.MismatchLeavesThePendingOut | pkg/cosmoguard/jsonrpc_handler.go:498-506 | With any other number of replies the output is exactly the refused and cached subsequence, and nothing is stored |
| Transparency.BatchIsPlain | pkg/cosmoguard/jsonrpc_handler.go:371-511 | From any sound cache, every reply of a batch is what a proxy without cache and batches would send |
| Transparency.BatchKeepsSound | pkg/cosmoguard/jsonrpc_utils.go:257-273 | A batch leaves a sound cache sound, whichever writes fail |
| Transparency.BatchKeepsSoundIff | pkg/cosmoguard/jsonrpc_utils.go:229-273 | Whatever replies come back, in whatever order, and whichever writes fail, the cache stays sound exactly when every reply that is stored and not overwritten answers the request to which it is scattered |
| Transparency.BatchRefuses | pkg/cosmoguard/jsonrpc_utils.go:118-255 | Whatever is cached, expires or comes back: unless the batch fails as a whole its client reads an error 401 without result under the id of each request that the rules refuse, in its place when the output is complete |
| Transparency.BatchPermitted | pkg/cosmoguard/jsonrpc_handler.go:371-511 | For each permitted request it reads the node's own message under its id, from any sound cache |
| Transparency.SingleIsPlain | pkg/cosmoguard/jsonrpc_handler.go:172-355 | A single request over HTTP reads the plain reply and leaves a sound cache sound |
| Transparency.SingleRefusesIff | pkg/cosmoguard/jsonrpc_handler.go:172-322 | From any cache and for any body: a refused client reads an error 401 without result under its id, any other reads the body or the cached message under its id, which from a sound cache is the node's own answer |
| Transparency.NextSingleIsReplayedIff | pkg/cosmoguard/jsonrpc_handler.go:197-355 | After upstream has answered a request, the next one with the same method and parameters is replayed that body under its own id exactly when the rule's settings let the body in and the write succeeded, and is decided as before otherwise; the write keeps a sound cache sound when the body is the node's answer |
| Transparency.SocketIsPlain | pkg/cosmoguard/ws_proxy.go:104-277 | An ordinary request over a WebSocket reads the plain reply, or none if its entry vanished between test and read, and leaves a sound cache sound |
| Transparency.SocketRefusesIff | pkg/cosmoguard/ws_proxy.go:104-277 | The same for an ordinary request over a WebSocket, which has no reply only when its entry vanished |
| Transparency.ThreeLoopsOneReply | pkg/cosmoguard/jsonrpc_handler.go:172-511 | The same request reads the same reply in a batch, alone over HTTP and over a WebSocket, from any three sound caches |
| Interleaving.StepKeeps | pkg/cosmoguard/jsonrpc_handler.go:172-511 | Every cache access, failing ones included, reply and change of rules, in any interleaving of the three loops, keeps the cache sound and every reply that was read plain |
| Interleaving.EveryReadIsPlain | pkg/cosmoguard/ws_proxy.go:104-277 | However uses of the three loops interleave on the shared cache, with entries expiring and rules replaced between: every read belongs to a request that was made in the schedule, and is what a proxy without cache and batches would have sent under the rules in force when it was made; only a WebSocket request whose entry vanishes between test and read has no reply |
| Interleaving.AroundTheLoops | pkg/cosmoguard/jsonrpc_handler.go:119-125 | Entries may expire in every state, and the rules may be replaced, by rules that allow or deny, exactly while no loop over the rules is under way |
| Alone.SingleAlone | pkg/cosmoguard/jsonrpc_handler.go:172-355 | Uninterrupted, the steps of a request over HTTP end with the reply and the cache that `HandleHttpSingle` promises, from any state |
| Alone.SocketAlone | pkg/cosmoguard/ws_proxy.go:104-277 | Uninterrupted, the steps of an ordinary WebSocket request end with the reply and the cache that the WebSocket loop promises |
| Alone.BatchAlone | pkg/cosmoguard/jsonrpc_handler.go:371-511 | Uninterrupted, the steps of a batch of any length, whichever writes fail, end with the output and the cache that `HandleHttpBatch` promises |
| Alone.UsesAreReadOnce | pkg/cosmoguard/jsonrpc_handler.go:172-511 | After every interleaving the uses that have begun are as many as those whose clients have read and those still under way: none is read twice and none is lost |
| Transparency.ReadTheCacheAlikeIff | pkg/cosmoguard/jsonrpc_handler.go:413-436 | Batch and single loop serve from the cache alike exactly when the rule has cache settings or there is no entry |
| Transparency.StoreAlikeIff | pkg/cosmoguard/jsonrpc_utils.go:259 | They store a storable reply alike exactly when the rule's cache is switched on, or the cache holds that reply already |
| Transparency.FailureIsReplayedIff | pkg/cosmoguard/jsonrpc_handler.go:334-354 | After a body that is no message the next client is sent a blank reply exactly when the rule stores empty results |
| WebSocket.JsonRpcWebSocketProxy.HandleRequest | pkg/cosmoguard/ws_proxy.go:104-277 | Refused and replayed requests leave the broker's relation alone, and a refused client is sent an error 401 without result under its id; any other has exactly the broker's effect on it, for each method and outcome; its reply is offered to the cache under the rule that allowed it, unless sending it to the client or writing the cache fails |
| WebSocket.JsonRpcWebSocketProxy.Decide | pkg/cosmoguard/ws_proxy.go:110-257 | The loop finds the verdict of the first rule that matches and allows or denies, else of the default |
| WebSocket.NextSubscribeIsReplayedIff | pkg/cosmoguard/ws_proxy.go:115-202 | After a served subscribe the next client that sends it is replayed the reply instead exactly when the rule has cache settings that let the reply in and sending and storing it succeeded; a reply that tells success is always let in |
| WebSocket.ReplayedIsNotSubscribed | pkg/cosmoguard/ws_proxy.go:115-150 | A client that is replayed the reply to a subscribe reads that reply and follows what it followed before |
| BodyReader.ReusableReader.Read | pkg/cosmoguard/http_utils.go:32-42 | Returns the next bytes, or the end; in any state back buffer and read buffer together stay the whole body |
| BodyReader.ReusableReader.ReadAll | pkg/cosmoguard/http_proxy.go:216 | From any state, with buffers of any sizes, returns the rest of the pass and leaves the reader rewound |
| BodyReader.EveryPassIsTheBody | pkg/cosmoguard/http_utils.go:15-42 | For any sequence of read sizes the bytes between consecutive ends are the whole body, and the pass under way has returned a first part of it |
| HttpProxy.ResponseWriterWrapper.Write | pkg/cosmoguard/http_utils.go:61-66 | Wrapper and client both get the bytes, with an implicit status 200 when none was written; the server drops them for a status without body |
| HttpProxy.ResponseWriterWrapper.WriteHeader | pkg/cosmoguard/http_utils.go:68-71 | The wrapper keeps the last status, the client's writer the first final one |
| HttpProxy.ResponseWriterWrapper.GetWrittenBytes | pkg/cosmoguard/http_utils.go:77-79 | All recorded bytes, taken out of the wrapper |
| HttpProxy.HttpProxy.Forward | pkg/cosmoguard/http_proxy.go:258-259 | The backend gets the rest of the body; record and client's response are what its calls make of them |
| HttpProxy.HttpProxy.Allow | pkg/cosmoguard/http_proxy.go:172-213 | What is forwarded is the whole body whether or not it was hashed first; reply, cache and reader afterwards, on hit, miss, vanished entry and without cache |
| HttpProxy.HttpProxy.CacheMiss | pkg/cosmoguard/http_proxy.go:255-308 | Stores status and bytes of the recorded response exactly when there is a status, it is 200 or errors are stored, and the write does not fail |
| HttpProxy.RecordsWhatIsSent | pkg/cosmoguard/http_utils.go:61-79 | For informational headers, one final header and a body, the wrapper records exactly what the client is sent, but for a body that its status does not allow |
| HttpProxy.BytesAgree | pkg/cosmoguard/http_utils.go:51-66 | Whatever a backend does, the recorded bytes are the sent ones, unless the sent status allows no body |
| HttpProxy.ReplayIsFaithfulIff | pkg/cosmoguard/http_proxy.go:223-233 | A replay shows what the first client read exactly when the last header of the backend, if it comes after the call that committed the status, repeats that status; informational headers and a plain write count as 200 |
| HttpProxy.SecondStatusIsReplayed | pkg/cosmoguard/http_utils.go:68-71 | A status written twice is recorded as the last and sent as the first, so the replay differs; the reverse proxy of the standard library, the only backend, makes no such calls |
| HttpProxy.HttpCacheIsInvisible | pkg/cosmoguard/http_proxy.go:172-308 | After any uses of the cache a client reads status and body as from the backend, except that a vanished entry gives an empty page with status 200 |
| HttpProxy.SameTextIff | pkg/cosmoguard/http_proxy.go:220 | Two requests have the same hashed text exactly when methods agree and URL and body run together to the same bytes |
| HttpProxy.BodilessTextsDiffer | pkg/cosmoguard/http_proxy.go:220 | Without bodies the hashed text identifies method and URL |

## Left out

- Multiplexer.LayersAgree: for Ethereum only until a connection that holds subscriptions reconnects, because the manager forgets them; `Limits.EthReconnectAgreesIff` is the exact condition.
- Multiplexer.GeneratedIdsAreOwned: over Cosmos only without failed re-submissions, which release ids in use; `Limits.FailedResubmissionKeepsOwnershipIff` is the exact condition.
- Multiplexer.RepliesAreTheCallersOwn: only in quiet schedules; a draw is harmless exactly under the condition of `Limits.DrawIsSafeIff`, and `Limits.LateSubscribeMisleads` is a schedule that breaks it.
- Multiplexer.ReaderIsWedgedIff: receiving a reply and deleting its entry are one step; a second message under the same id between the two would meet a closed channel, which panics.
- Limits.SubscribeRun: an Ethereum node that refuses answers without an id, on which the program panics; here its answers to a subscribe always carry one.
- Multiplexer.NotificationsReachTheFollowers: the sends are decided, and each is assumed to arrive; they leave on goroutines of their own and may overtake each other.
- Interleaving.EveryReadIsPlain: requests for subscriptions over the WebSocket change the broker and have no plain reply; a rule with cache settings that allows them can store and replay their replies, which `Caching.StoreIsSoundIff` judges. Test and read of one cache entry are one step, the vanishing of the entry between them being part of it.
- Rules.JsonRpcRule.Match: requires, where the method matches, that comparing parameters does not panic: no list or map compared with a list or map, and no positional parameter missing before the first difference. The program does not check this.
- Handlers.JsonRpcHandler.HandleHttpSingle: requires this of the rules up to the one that decides, and no array in reply to a single request. Marshalling does not fail.
- Upstream.EthConn.OnUpstreamMessage: requires parameters and subscription id of the type the manager asserts; the program panics on others.
- Broker.Broker.AddSubscription: requires at least one positional parameter when parameters are positional, and an Ethereum node to assign a string that is not in use; the program panics on no parameter and on other results.
- Pool.UpstreamPool.GetConnection: requires that the counter does not wrap to zero with several connections; then the program panics.
- Broker.Broker.RemoveSubscription: one uninterrupted call; the window between its two parts is in the step system.
- Handlers.JsonRpcHandler.SetRules: hands the rules on to the WebSocket proxy as well; here the proxy's own `SetRules` is a separate call.
- HttpProxy.HttpProxy.Allow: the server sends no body in reply to HEAD, whatever is written; this is not modelled. Response headers are not recorded by the program and not modelled; a replay carries status and body.
- Drawing an id, receiving a reply and clearing its entry, and each map access are single steps; races between them on the Go memory model are not modelled.
- `sort.Slice` itself: every sorted permutation of the configured rules is considered.
- Parsing of JSON and YAML, the glob library, hashing, Redis, the TTL cache and its encoding.
- Dialing, upgrading, listeners, the gRPC proxy, logging, metrics, options, command line, file watching.
- `HttpRule`, `GrpcRule` and the rule loops of the HTTP and gRPC proxies: the same first match as in the single JSON-RPC loop.
- Response timeouts are a choice of the environment, not a clock.
