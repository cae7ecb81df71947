# Verification of the CTP multi-account trading service

A Dafny model of the hard parts of the service, with proofs about every run of them. The exchange
(CTP) is an adversary: it may answer anything at any time unless a lemma says otherwise. Code that
updates state in place is modelled by classes whose methods are proved against a state machine, and
the whole-run theorems are lemmas about that state machine.

| file | what it models |
|---|---|
| `Selection.dfy` | the elements of a sequence a condition keeps, in order: what filtering loops are stated by |
| `OrderRef.dfy` | normalisation of order references |
| `TradeTypes.dfy` | commands, exchange events, wire messages, API requests |
| `TradeActor.dfy`, `TradeRuns.dfy` | the trade-session actor as a state machine, and what all its runs keep |
| `TradeCommands.dfy` | what the commands a session takes come to |
| `TradeSessionActor.dfy` | the actor's task: the select loop and the nested login, cancel and query loops |
| `QueryDemux.dfy` | the callback thread's pending-query map |
| `TradeSystem.dfy` | callbacks, event queue and actor together, and the session's requests |
| `QueryContents.dfy`, `CancelSystem.dfy` | queries and cancels from the exchange's callbacks to the reply |
| `SubscriptionTable.dfy`, `SubscriptionQueue.dfy` | the instrument-to-clients index and the commands it sends to the exchange |
| `MarketData.dfy`, `MarketDataActor.dfy` | the market-data service: login, resubscription, tick fanout; its classes |
| `ClientReplay.dfy`, `ClientReconnect.dfy` | the market-data client's replay buffer and reconnect agreement; its calls while the connection comes and goes |
| `Framing.dfy` | length-prefixed framing, reader and writer |
| `Backoff.dfy`, `Reconnect.dfy` | reconnect delays and the reconnect controller |
| `Sessions.dfy`, `ServerState.dfy` | access rules, bindings, entry points and account mailboxes |
| `Permissions.dfy` | who may do what, read off configuration and requests |
| `AccountSystem.dfy` | entry points, mailbox and actor of one account together |

How a run is written. A state machine takes one input a step, and a run is a sequence of inputs. In
`TradeActor` an input the current wait does not poll (a command while a nested loop runs, an event
while logged out) stays where it is, so offering it changes nothing; the mailbox order is kept by
offering the same command again. The outcome of an exchange call travels with the input that leads
to it. `TradeSessionActor.Serve` and `MarketDataSessionActor.Serve` are proved to compute exactly
these runs, nested loops included.

Where the code keeps less than one might expect, the model keeps the code:

- A front disconnect received by a cancel or query loop leaves the login in place
  (`TradeRuns.LoginEndsExactly`; `CancelLoopSwallowsDisconnect` and `QueryLoopSwallowsDisconnect` give
  reachable runs).
- The cancel loop compares the client order id with the returned reference as it stands, while orders
  are written, and returns routed, by a normalised reference. No id is safe: every order has a return
  that is routed to its client and leaves a cancel of it waiting
  (`TradeRuns.CancelRecognisesItsOrderExactly`, `EveryCancelCanMissItsOrder`).
- An error, a last part or a cancel answer of another kind with a query's id ends the query or discards
  what it collected (`TradeSystem.OwnAnswerIsDeliveredExactly` says exactly when that shows).
- Mutating the subscription table and sending the command are two steps. Sends that overtake each
  other can leave the exchange without an instrument that has clients
  (`SubscriptionQueue.CrossedSendsLoseInstrument`); `SettledExactly` and `OvertakingIsHarmlessExactly`
  say exactly when they do not.
- A market-data login consumed while a command waits does not resubscribe, and can leave an instrument
  out (`MarketData.WaitLoopLoginLosesInstrument`; `LoginInWaitLoopConvergesExactly` says exactly when).
- The cleanup of a lost connection goes by client id, so one that is handled after a reconnecting
  client's hello takes its new registration, and after its subscription its new rows as well
  (`ClientReplay.LateCleanupAgreesExactly`).
- A reconnect starts the new reader before it marks the connection active. A reader that stops in
  between finds it not active and begins no outage, and the connection stays marked active with no
  reader for good (`Reconnect.OutageIsLostExactly`, `OutageCanBeLost`).
- The writer task ends on its first failed write and is never replaced, so no later outage can end
  connected (`Reconnect.NoWriterNoReturn`).
- A market-data call hands its envelope over before it updates the replay buffer. A replay in between
  can lose a subscription or bring one back (`ClientReconnect.ServerIsWrongAboutExactly`,
  `ReplayInCallLosesInstrument`).
- The server's disconnect cleanup runs when the stream ends within a length prefix, also after one
  to three bytes of it, and not when it ends within a payload (`Framing.ReadLoop`,
  `Framing.CutStreamKeepsCompleteFrames`).
- Request ids wrap at 2^32; freshness is proved up to exactly that many requests a session.

## Model

| member | source | states |
|---|---|---|
| `OrderRef.NormalizeIgnoresPadding` | crates/model/src/ctp.rs:9-15 | a reference returned with any non-alphanumeric padding inserted normalises to the one written |
| `OrderRef.NormalizeEqualityIsPadding` | crates/model/src/ctp.rs:9-15 | a returned reference of at most 12 alphanumerics resolves to an order exactly when it is that order's written reference with padding |
| `OrderRef.NormalizeIsIdempotent` | crates/model/src/ctp.rs:9-15 | the key of a key is the key |
| `OrderRef.WrittenReferenceExactly` | crates/model/src/ctp.rs:9-15 | a written reference is the ASCII letters and digits of the id, in order, the first twelve of them |
| `OrderRef.NormalizeIsIdentityExactly` | crates/model/src/ctp.rs:9-15 | an id is written to the exchange unchanged exactly when it is at most 12 ASCII alphanumerics |
| `TradeRuns.RunCoherent` | crates/server/src/actor/trade.rs:223-275 | over every run: login ids imply a session, nested loops run only in their login state, and the request id waited for is the session's latest |
| `TradeRuns.NotConnectedIsUnreachable` | crates/server/src/actor/trade.rs:378-395 | in every reachable state with login ids a session exists and its events are polled, so the "not connected" branches are dead |
| `TradeRuns.LoggedInMessagesCarryStoredIds` | crates/server/src/actor/trade.rs:359-371 | every LoggedIn message, from the login loop or a repeated login, carries the ids stored once it is sent |
| `TradeRuns.IdsComeFromSettlement` | crates/server/src/actor/trade.rs:590-604 | ids appear only when the login loop consumes a settlement confirmation, and are never replaced in place |
| `TradeRuns.LoginStoresLatestIds` | crates/server/src/actor/trade.rs:561-604 | the stored ids are those of the last LoginOk consumed in that login call, else the default (0, 0) |
| `TradeRuns.LoginMakesHandshake` | crates/server/src/actor/trade.rs:563-589 | a running login issues authenticate, login and confirm requests for exactly the events that call for them, in order, with consecutive ids |
| `TradeRuns.LoginStopsAtFirstEnd` | crates/server/src/actor/trade.rs:563-661 | the login loop stops at the first confirmation, failure or refused request and not before; over the call the requester hears of each connect and disconnect in order and then, once, of the outcome |
| `TradeRuns.LoginKeepsWaiting` | crates/server/src/actor/trade.rs:563-661 | until then the login goes on and no LoggedIn or Error is reported |
| `TradeRuns.LoginEndsExactly` | crates/server/src/actor/trade.rs:476-508 | a login ends exactly on a logout or a disconnect received by the main loop; the latter alone marks the account disconnected |
| `TradeRuns.RepliesReachTheirRequester` | crates/server/src/actor/trade.rs:287-488 | every reply, whichever loop sends it, goes to the channel of the command being served |
| `TradeRuns.RequestsAreNumbered` | crates/server/src/adapter/exchange/trade.rs:833-835 | over every run of a live session the requests carry the counter's ids in order, none twice or skipped |
| `TradeRuns.RequestIdsCollideExactly` | crates/server/src/adapter/exchange/trade.rs:833-835 | two requests share an id exactly when they are a multiple of 2^32 apart |
| `TradeCommands.RequestIdIsWrapped` | crates/server/src/adapter/exchange/trade.rs:833-835 | ids are signed 32-bit, equal to the count up to 2^31 and to it modulo 2^32 beyond |
| `TradeRuns.PushesAreReturnsConsumed` | crates/server/src/actor/trade.rs:498-503 | over every run the pushes are the returns consumed outside login, in consumption order, each once, each resolved against the registry and client channels of that moment, whichever loop consumed it |
| `TradeRuns.RegistryIsLastWriterWins` | crates/server/src/actor/trade.rs:685-706 | since the last clear, the registry maps each normalised reference to the latest attempted order with it, failed submissions included |
| `TradeRuns.OrdersAreSubmittedUnderTheirKey` | crates/server/src/adapter/exchange/trade.rs:675-676 | over every run the references submitted to the exchange are the registry keys of the orders taken while logged in, in order, each once |
| `TradeCommands.ReturnReachesLatestCommand` | crates/server/src/actor/common.rs:152-232 | after any run, a return carrying an order's written reference with any padding makes exactly one push: to the client of the latest such order command since the last logout, on its registered channel, telling field by field what that command said |
| `TradeCommands.UnknownReturnIsDropped` | crates/server/src/actor/common.rs:152-210 | a return whose reference no order command since the last logout was written under is pushed to nobody |
| `TradeCommands.AnonymousTradeIsDropped` | crates/server/src/actor/common.rs:180-210 | a trade return without a reference is pushed to nobody |
| `TradeCommands.RoutesAreLastRegistrations` | crates/server/src/actor/common.rs:212-232 | over every run pushes go by each client's last registration |
| `TradeCommands.LoggedOutAnswers` | crates/server/src/actor/trade.rs:287-344 | without a login, a login starts or reports Error, a logout reports Disconnected, and everything else is refused with error -11 and changes nothing |
| `TradeCommands.OrderAnswers` | crates/server/src/actor/trade.rs:373-391 | an order the API refuses is answered with error -10, a taken one with nothing; either way it stays registered with all its fields |
| `TradeCommands.RefusedRequestIsSilent` | crates/server/src/actor/trade.rs:393-475 | a cancel or query the API refuses is not answered and the actor goes on; a taken one waits |
| `TradeCommands.CancelByExchangeId` | crates/server/src/adapter/exchange/trade.rs:711-749 | a cancel by exchange id alone names no reference and carries the live login's ids |
| `TradeCommands.RepeatedLoginIsAnswered` | crates/server/src/actor/trade.rs:359-371 | a login while logged in is answered with the account asked for and the stored ids |
| `TradeCommands.LogoutForgetsSession` | crates/server/src/actor/trade.rs:476-488 | a logout reports it, clears the ids and the registry and releases the session |
| `TradeCommands.LoginAfterLogoutStartsOver` | crates/server/src/actor/trade.rs:546-561 | the next login starts a session whose requests are numbered from 1 again |
| `TradeRuns.CancelKeepsWaiting` | crates/server/src/actor/trade.rs:718-771 | while nothing ends the cancel, it stays as it is and tells the requester nothing |
| `TradeRuns.CancelStopsAtFirstEnd` | crates/server/src/actor/trade.rs:718-771 | the cancel loop consumes exactly the shortest event prefix that ends in a terminal return of its target, its own accept or failure, or a disconnect; at most one error is sent |
| `TradeRuns.CancelRecognisesItsOrderExactly` | crates/server/src/actor/trade.rs:725-745 | of all terminal returns of the order a cancel names by client order id alone, whatever their padding, exactly the one that repeats that id character by character ends the cancel |
| `TradeRuns.CancelRecognisesUnpaddedReturnExactly` | crates/server/src/actor/trade.rs:725-745 | the corollary for returns without padding: such a return ends the cancel exactly when the id is written to the exchange unchanged |
| `TradeRuns.EveryCancelCanMissItsOrder` | crates/server/src/actor/trade.rs:725-745 | for every order there is a reachable cancel and a terminal return of that order that is pushed to the order's client and leaves the cancel waiting |
| `TradeRuns.CancelLoopSwallowsDisconnect` | crates/server/src/actor/trade.rs:764-767 | a reachable run in which a disconnect ends a cancel and leaves the stored login in place |
| `TradeRuns.QueryLoopSwallowsDisconnect` | crates/server/src/actor/trade.rs:931-934 | a reachable run in which a disconnect leaves both the query and the stored login in place |
| `TradeRuns.CancelAsksForSubmittedOrder` | crates/server/src/adapter/exchange/trade.rs:711-749 | after any run, a cancel naming an attempted order asks for the reference that order was submitted and registered under, with the live login's ids |
| `TradeRuns.StaleCancelAnswerIsIgnored` | crates/server/src/actor/trade.rs:752-763 | in every reachable state an accept or failure of an earlier request of the session changes nothing |
| `CancelSystem.CancelReplyContents` | crates/server/src/adapter/exchange/trade.rs:397-424 | what a cancel's requester hears, by callback: unless a closing return or disconnect was queued before, the first callback that ends it decides; the exchange's error if it refuses, nothing if it accepts, returns the order closed, or reports a disconnect |
| `CancelSystem.CancelIsFresh` | crates/server/src/adapter/exchange/trade.rs:711-749 | an accepted cancel has no queued answer, up to 2^32 requests a session, and its id is registered as a cancel |
| `CancelSystem.CancelEndToEnd` | crates/server/src/actor/trade.rs:708-771 | the same from an empty session through any causal past of at most 2^32 requests |
| `TradeSessionActor.TradeSessionActor.Serve` | crates/server/src/actor/trade.rs:217-284 | the task consumes all it is offered and its state is the run of the state machine over it |
| `TradeSessionActor.TradeSessionActor.HandleLoggedOutCommand` | crates/server/src/actor/trade.rs:287-344 | one command without a login, with the login loop it may start, is a run of the state machine |
| `TradeSessionActor.TradeSessionActor.HandleLoggedInCommand` | crates/server/src/actor/trade.rs:346-488 | one command with a login, with the nested loop it may start, is a run of the state machine |
| `TradeSessionActor.TradeSessionActor.HandleLoggedInEvent` | crates/server/src/actor/trade.rs:490-523 | one event in the main loop is one step: a push for a return, loss of the login on a disconnect |
| `TradeSessionActor.TradeSessionActor.BeginLogin` | crates/server/src/actor/trade.rs:546-561 | the session is created if needed, a failure answers Error, otherwise the login loop starts |
| `TradeSessionActor.TradeSessionActor.OnLoginEvent` | crates/server/src/actor/trade.rs:568-661 | one event of the login loop does the state machine's step: next request, disconnect notice, completion, failure, or nothing; the loop ends exactly on completion or failure |
| `TradeSessionActor.TradeSessionActor.Handshake` | crates/server/src/actor/trade.rs:569-589 | a connect, authentication or login event issues the next request of the handshake under the next id |
| `TradeSessionActor.TradeSessionActor.CompleteLogin` | crates/server/src/actor/trade.rs:590-604 | a settlement confirmation stores and reports the latest login's ids |
| `TradeSessionActor.TradeSessionActor.DriveTradeLogin` | crates/server/src/actor/trade.rs:525-663 | the login loop ends logged in, ends in an error, or is still waiting with nothing left to read |
| `TradeSessionActor.TradeSessionActor.RegisterAndInsertOrder` | crates/server/src/actor/trade.rs:685-706 | the order is registered before it is submitted under its normalised reference |
| `TradeSessionActor.TradeSessionActor.BeginCancel` | crates/server/src/adapter/exchange/trade.rs:711-749 | the cancel request carries the login's ids and the normalised reference, under the next request id |
| `TradeSessionActor.TradeSessionActor.OnCancelEvent` | crates/server/src/actor/trade.rs:724-769 | one event of the cancel loop does the state machine's step, and the loop ends exactly when that step ends the cancel |
| `TradeSessionActor.TradeSessionActor.DriveCancelOrder` | crates/server/src/actor/trade.rs:708-771 | the cancel loop is a run of the state machine |
| `TradeSessionActor.TradeSessionActor.WaitActionableEvent` | crates/server/src/actor/trade.rs:913-938 | returns are pushed on the way to the next event a query acts on; nothing is lost or reordered |
| `TradeSessionActor.TradeSessionActor.BeginQuery` | crates/server/src/adapter/exchange/trade.rs:751-819 | one request under the next id, with the instrument filter only for positions |
| `TradeSessionActor.TradeSessionActor.OnQueryEvent` | crates/server/src/actor/trade.rs:849-876 | one actionable event of a query loop does the state machine's step: only this query's own answer or failure replies and ends the loop |
| `TradeSessionActor.TradeSessionActor.DriveQuery` | crates/server/src/actor/trade.rs:773-911 | the query loops are runs of the state machine |
| `TradeSessionActor.TradeSessionActor.PushReport` | crates/server/src/actor/common.rs:152-210 | a return is pushed to the registered order's client, or dropped without a registry entry or reference |
| `TradeSessionActor.TradeSessionActor.PushEnvelopeToClient` | crates/server/src/actor/common.rs:212-232 | a push uses the channel the client last registered, if any |
| `QueryDemux.SharedState.On` | crates/server/src/adapter/exchange/trade.rs:397-545 | one callback changes the pending map and emits events as the specification function says |
| `QueryDemux.ClosedRequestStaysClosed` | crates/server/src/adapter/exchange/trade.rs:164-167 | once an error, a last part or a cancel answer closed a request, no later callbacks reopen it: its id collects nothing until it is registered again |
| `QueryDemux.SharedState.AppendRecord` | crates/server/src/adapter/exchange/trade.rs:169-188 | a record is kept only for a pending query of its own kind |
| `QueryDemux.SharedState.TakeRecords` | crates/server/src/adapter/exchange/trade.rs:190-212 | the entry is removed whatever its kind; its records come back only for its own kind |
| `TradeSystem.SystemRefinesActor` | crates/server/src/actor/trade.rs:227-275 | the actor inside the whole system is a run of the actor alone |
| `TradeSystem.RunQueueIssued` | crates/server/src/adapter/exchange/trade.rs:833-835 | over every causal run all queued answers carry ids already issued on the session |
| `TradeSystem.ReleasedSessionLeavesNothing` | crates/server/src/actor/trade.rs:476-486 | over every run, without a session there are no pending entries and no queued events: the next session starts from nothing |
| `TradeSystem.AcceptedQueryIsFresh` | crates/server/src/adapter/exchange/trade.rs:767-819 | after any causal past of at most 2^32 requests, a query starts with an empty entry and no queued answer |
| `TradeSystem.TradeSession.Query` | crates/server/src/adapter/exchange/trade.rs:751-819 | the id is registered before the call, so callbacks that arrive while the call runs have the effect they have after it in the whole system |
| `TradeSystem.TradeSession.CancelOrder` | crates/server/src/adapter/exchange/trade.rs:711-749 | the same for a cancel, which carries the ids it is given and the normalised reference |
| `TradeSystem.QueryStaysCorrelated` | crates/server/src/adapter/exchange/trade.rs:464-545 | under any interleaving and any callbacks, a running query's entry holds its own accepted records so far unless something discarded it, and what it will be answered with is the first such event queued |
| `TradeSystem.QueryAnswerIsOwnRecords` | crates/server/src/actor/trade.rs:806-911 | a query sends one reply, fixed by the callbacks with its id: its own error or exactly its own accepted records in arrival order, if and only if callbacks of another kind do not disturb it; stale answers are never delivered |
| `TradeSystem.QueryEndToEnd` | crates/server/src/actor/trade.rs:773-911 | the same from an empty session through any causal past of at most 2^32 requests, with no assumption on the kinds of callbacks |
| `QueryContents.QueryReplyContents` | crates/server/src/adapter/exchange/trade.rs:464-545 | what an undisturbed query's one reply says, by callback: the first own error or last part fixes it; an error is passed on, else the rows are, in arrival order and each once, the translated records of its own callbacks up to that one, empty positions aside, an order under its registered client |
| `QueryContents.QueryContentsEndToEnd` | crates/server/src/actor/trade.rs:773-911 | the same from an empty session through any causal past of at most 2^32 requests |
| `QueryContents.PositionsShownExactly` | crates/server/src/adapter/exchange/trade.rs:464-488 | a position is shown exactly when one of the query's own callbacks handed it over with a volume other than zero |
| `TradeSystem.OwnAnswerIsDeliveredExactly` | crates/server/src/adapter/exchange/trade.rs:156-213 | exactly when callbacks of another kind leave a query's answer alone: no such error first (other than the very one it fails with), and no such last part or cancel answer first while there are records to lose |
| `TradeSystem.ForeignPartsAreHarmless` | crates/server/src/adapter/exchange/trade.rs:169-188 | parts of another kind that are neither last nor errors never matter |
| `TradeSystem.ForeignLastPartLosesRecords` | crates/server/src/adapter/exchange/trade.rs:190-212 | an input that disturbs: a last part of another kind discards the collected records |
| `TradeSystem.RequesterGetsEmptiedAnswer` | crates/server/src/actor/trade.rs:773-911 | a run from an empty session, through login and query, in which such a part has the requester told there are no orders |
| `SubscriptionTable.RowsDetermineTable` | crates/server/src/actor/common.rs:89-89 | an index without empty entries is determined by its (client, instrument) pairs |
| `SubscriptionTable.SubscribeAddsRows` | crates/server/src/actor/data.rs:22-47 | subscribing adds exactly the pairs of the request, duplicates included, and never leaves an empty entry |
| `SubscriptionTable.UnsubscribeDropsRows` | crates/server/src/actor/data.rs:49-74 | unsubscribing removes exactly the pairs of the request |
| `SubscriptionTable.RemoveClientDropsRows` | crates/server/src/actor/data.rs:76-96 | removal drops exactly the client's pairs |
| `SubscriptionTable.RemoveIsUnsubscribeAll` | crates/server/src/actor/data.rs:76-96 | removal and unsubscribing exactly the held instruments give the same table and the same emitted set |
| `SubscriptionTable.SubscribeEmits` | crates/server/src/actor/data.rs:34-38 | the exchange is asked, once each, for exactly the instruments that gained their first client |
| `SubscriptionTable.UnsubscribeEmits` | crates/server/src/actor/data.rs:57-65 | the exchange is told, once each, of exactly the instruments that lost their last client |
| `SubscriptionQueue.RunKeepsDesk` | crates/server/src/actor/data.rs:173-240 | over every interleaving of handlers the index has no empty entry, a non-empty one has its actor, and the commands fit it |
| `SubscriptionQueue.SubscriptionsAreConserved` | crates/server/src/actor/data.rs:173-240 | Subscribe minus Unsubscribe commands emitted for an instrument, sent or in flight, is 1 while it has a client and 0 otherwise |
| `SubscriptionQueue.UnsubscriptionsAreNeverDropped` | crates/server/src/actor/data.rs:212-216 | the optional-actor check never discards a non-empty unsubscription |
| `SubscriptionQueue.InOrderReplayIsTable` | crates/server/src/actor/data.rs:173-240 | with sends in mutation order, commands per instrument alternate and replaying them on nothing gives the table's instruments |
| `SubscriptionQueue.ReplayByLastMention` | crates/server/src/actor/data.rs:269-286 | replaying commands leaves an instrument as its last mention says |
| `SubscriptionQueue.OvertakingIsHarmlessExactly` | crates/server/src/actor/data.rs:178-195 | exactly when a send that overtakes others leaves the final subscription unchanged, for any commands sent before, in any order: for each instrument it names, no overtaken command names it, or the last that does is of its kind, or one behind it names it |
| `SubscriptionQueue.SendIsHarmlessExactly` | crates/server/src/actor/data.rs:178-195 | the same of a send of a desk in any state |
| `SubscriptionQueue.RunKeepsCommands` | crates/server/src/actor/data.rs:173-240 | sends only move commands: over every run those sent and in flight are the produced ones, each once |
| `SubscriptionQueue.SettledExactly` | crates/server/src/actor/data.rs:173-240 | over every interleaving, sends in any order: an instrument ends up subscribed exactly when it has clients if and only if the last command sent naming it is of the kind of the last one produced naming it |
| `SubscriptionQueue.CrossedSendsLoseInstrument` | crates/server/src/actor/data.rs:203-216 | a reachable race after which an instrument with a client is not subscribed |
| `MarketData.RunKeepsService` | crates/server/src/actor/data.rs:108-155 | over every run, sends in any order: commands in the order the table produced them fit it, none is lost or doubled on the way to the queue, and a waited-for command is the last one taken |
| `MarketData.StaleCommandsAreHarmless` | crates/server/src/actor/data.rs:384-406 | subscribing the table's instruments and then replaying any stale tail of the commands gives the table's instruments |
| `MarketData.LoginInMainLoopConvergesExactly` | crates/server/src/actor/data.rs:341-345 | after any run, sends in any order: a login handled by the event handler puts the exchange set on course to the table exactly when the commands still ahead end, for each instrument they name, as the table stands |
| `MarketData.LoginInMainLoopConverges` | crates/server/src/actor/data.rs:341-345 | whatever happened before, it always does when no send has overtaken another |
| `MarketData.SendConvergesExactly` | crates/server/src/actor/data.rs:178-195 | exactly when a send that overtakes others keeps the service on course |
| `MarketData.CalmRunConverges` | crates/server/src/actor/data.rs:108-155 | from there on, without failures, new logins or harmful overtaking, it stays on course, and equals the table once all is sent and taken |
| `MarketData.LoginSettlesSubscription` | crates/server/src/actor/data.rs:269-406 | end to end: after any past with sends in order, a login handled by the event handler and any further failure-free inputs with sends in order, once all is sent and taken the exchange set is the table's instruments |
| `MarketData.LoginInWaitLoopConvergesExactly` | crates/server/src/actor/data.rs:290-329 | after any run: a login consumed by the wait loop is on course exactly when the table's instruments are those the unapplied commands subscribe last |
| `MarketData.InOrderLoginInWaitLoopConvergesExactly` | crates/server/src/actor/data.rs:290-329 | when no send has overtaken another: exactly when every instrument of the table is still named by an unapplied command |
| `MarketData.WaitLoopLoginLosesInstrument` | crates/server/src/actor/data.rs:300-303 | a reachable run, sends in order, that ends drained with an instrument that has a client and is not subscribed |
| `MarketData.FirstLoginConverges` | crates/server/src/actor/data.rs:132-150 | the first login of a fresh service is on course when sends are in order |
| `MarketData.TableRefinesFlatRelation` | crates/server/src/actor/data.rs:22-96 | over every run the index is the flat relation the history of requests defines, and the client map its registrations |
| `MarketData.TickReachesSubscribers` | crates/server/src/actor/data.rs:408-452 | after any run a tick goes to exactly the clients subscribed in the flat relation and registered, once each |
| `MarketData.NextCommandWaitsForLogin` | crates/server/src/actor/data.rs:362-374 | after a disconnect or failed login in the main loop the next command waits for a login |
| `MarketData.RefusedResubscriptionLeavesNothing` | crates/server/src/actor/data.rs:384-406 | over any further events a closed client stays closed and makes no more connects or replays |
| `MarketData.WaitEndsExactly` | crates/server/src/actor/data.rs:290-329 | a wait ends exactly on a login, a failure, an error or a refused login call; only a login applies the command, to an empty exchange set |
| `MarketData.LoggedInCommandIsApplied` | crates/server/src/actor/data.rs:257-288 | logged in, a command is applied as it is taken, or dropped if the call fails |
| `MarketData.FailedConnectDropsCommand` | crates/server/src/actor/data.rs:128-141 | a command that cannot connect is dropped |
| `MarketDataActor.MarketDataState.SubscribeMarketData` | crates/server/src/actor/data.rs:22-47 | the subscribe loop computes the specified table and emitted list |
| `MarketDataActor.MarketDataState.UnsubscribeMarketData` | crates/server/src/actor/data.rs:49-74 | the unsubscribe loop computes the specified table and emitted list |
| `MarketDataActor.MarketDataState.RemoveMarketDataClientSubscriptions` | crates/server/src/actor/data.rs:76-96 | both loops, in any map order, drop the client and list its orphaned instruments once each |
| `MarketDataActor.MarketDataState.RemoveFromEntries` | crates/server/src/actor/data.rs:83-88 | in any entry order, the client leaves every entry and the entries left without clients are listed once each |
| `MarketDataActor.MarketDataState.HandleRequest` | crates/server/src/actor/data.rs:173-240 | a handler's work under the lock changes the table, starts the actor on a subscription and leaves the command to be sent in flight |
| `MarketDataActor.MarketDataSessionActor.Serve` | crates/server/src/actor/data.rs:108-155 | the actor consumes all offers in order and its state is a consistent run of the state machine, handlers sending whenever they get to |
| `MarketDataActor.MarketDataSessionActor.BeginTake` | crates/server/src/actor/data.rs:116-150 | taking a command applies it, drops it on a failed connect, or waits for the login |
| `MarketDataActor.MarketDataSessionActor.WaitMarketDataLogin` | crates/server/src/actor/data.rs:290-329 | the login wait is a run of the state machine while clients go on changing the table |
| `MarketDataActor.MarketDataSessionActor.HandleMarketDataEvent` | crates/server/src/actor/data.rs:331-382 | one event in the main loop is one step |
| `MarketDataActor.MarketDataSessionActor.ResubscribeMarketData` | crates/server/src/actor/data.rs:384-406 | a fresh login subscribes every instrument of the table, or nothing if the call fails |
| `MarketDataActor.MarketDataSessionActor.FanoutMarketDataTick` | crates/server/src/actor/data.rs:408-452 | in any set order, each subscribed and registered client is sent the tick exactly once, and nobody else |
| `ClientReplay.MarketDataClient.UpdateReconnectEnvelopes` | crates/client/src/market_data.rs:123-140 | the buffer becomes a hello and, if there is anything, one subscription listing the set once each |
| `ClientReplay.MarketDataClient.Connect` | crates/client/src/market_data.rs:33-39 | a taken hello fills the new connection's buffer with the current set |
| `ClientReplay.MarketDataClient.Subscribe` | crates/client/src/market_data.rs:52-70 | a successful call adds the instruments and makes the buffer exact; a failed one changes nothing |
| `ClientReplay.MarketDataClient.Unsubscribe` | crates/client/src/market_data.rs:72-91 | a successful call removes the instruments and makes the buffer exact; a failed one changes nothing |
| `ClientReplay.ServerFollowsClient` | crates/server/src/adapter/internal/tcp_server.rs:277-298 | a server that handled all a client sent holds exactly the client's set and no other rows moved |
| `ClientReplay.ReconnectRestoresClient` | crates/common/src/network/tcp_client/client.rs:280-292 | cleanup and then the replay make the server's rows for the client its set and leave other rows alone |
| `ClientReplay.ReconnectTouchesOnlyInstrumentsHeldAlone` | crates/server/src/actor/data.rs:220-240 | reconnecting unsubscribes and resubscribes exactly the instruments the client held alone, and the table is back |
| `ClientReplay.MissingCleanupAgreesExactly` | crates/server/src/adapter/internal/tcp_server.rs:85-107 | if the cleanup never runs, the replay restores the client's set exactly when the old rows hold nothing the client has dropped since |
| `ClientReplay.LateCleanupAgreesExactly` | crates/server/src/actor/data.rs:220-240 | for each place in the replay where the old connection's cleanup is handled: rows agree exactly when that is before the subscription or the set is empty, the client is registered and sent ticks exactly when it is before the hello, and no other client is touched |
| `ClientReplay.UnregisteredStaysWithoutTicks` | crates/server/src/actor/data.rs:425-438 | a client whose registration was taken gets no ticks whatever it then subscribes to, short of another hello |
| `ClientReconnect.ServerIsWrongAboutExactly` | crates/client/src/market_data.rs:52-91 | over every run of calls, losses, reconnects and replays: what the server comes to hold differs from what the client wants in exactly what the last replay missed by falling into a call, less what later calls named |
| `ClientReconnect.ServerAgreesExactly` | crates/client/src/market_data.rs:52-91 | at rest, with nothing queued and no call under way, server and client agree exactly when that is nothing |
| `ClientReconnect.NothingWrongOutsideCalls` | crates/common/src/network/tcp_client/client.rs:280-292 | replays that fall between calls miss nothing, whatever the writer dropped |
| `ClientReconnect.ReplayInCallLosesInstrument` | crates/client/src/market_data.rs:57-68 | a reachable run in which a subscription succeeds and the server, at rest, does not hold it |
| `ClientReconnect.RunKeepsWire` | crates/common/src/network/tcp_client/client.rs:193-224 | over every run the buffer is a hello and the recorded set, and a new connection is never to hold more than the client wants |
| `Framing.FramingRoundTrip` | crates/common/src/network/tcp_client/client.rs:164-221 | decoding the encoding of frames of at most 16 MiB returns them |
| `Framing.PayloadsSurviveExactly` | crates/common/src/network/tcp_client/client.rs:208-216 | payloads of any lengths survive framing exactly when each is at most 16 MiB, length wrap-around included |
| `Framing.OversizedLengthStopsReading` | crates/common/src/network/tcp_client/client.rs:170-174 | an oversized length ends reading after all earlier frames were delivered |
| `Framing.CutStreamKeepsCompleteFrames` | crates/server/src/adapter/internal/tcp_server.rs:83-107 | any byte prefix delivers exactly its complete frames, and ends within a length exactly when fewer than four bytes follow them |
| `Framing.CompleteWithinExactly` | crates/server/src/adapter/internal/tcp_server.rs:83-107 | the complete frames of a prefix are the longest run of frames that fits in it |
| `Framing.DecodedFramesAreThePrefix` | crates/common/src/network/tcp_client/client.rs:164-183 | whatever is delivered from any bytes, its encoding is a prefix of those bytes |
| `Framing.ReadLoop` | crates/server/src/adapter/internal/tcp_server.rs:82-119 | the read loop delivers the decoded frames, and cleans up, for the client the last hello introduced, exactly when a market-data stream ends within a length rather than in a transport error |
| `Framing.IntroducedByLastHello` | crates/server/src/adapter/internal/tcp_server.rs:109-114 | the client cleaned up for is the one of the last hello among the payloads |
| `Framing.WriteLoop` | crates/common/src/network/tcp_client/client.rs:193-224 | what reaches the current connection is the encoding of the payloads taken while active, or a prefix of it on failure |
| `Framing.WrittenExactly` | crates/common/src/network/tcp_client/client.rs:193-224 | what is on the wire is exactly the payloads taken while active since the last swap, in order |
| `Framing.PeerReceivesPrefix` | crates/server/src/adapter/internal/tcp_server.rs:121-133 | however the connection is cut, the peer is handed a prefix of the payloads sent, unaltered and in order |
| `Backoff.ExponentialBackoff.New` | crates/common/src/network/backoff.rs:21-46 | construction fails exactly on a zero initial delay, a maximum below it, or a factor outside [1, 100] |
| `Backoff.ExponentialBackoff.NextDuration` | crates/common/src/network/backoff.rs:49-73 | the delay returned and the advanced state are as specified and within bounds |
| `Backoff.ExponentialBackoff.Reset` | crates/common/src/network/backoff.rs:76-79 | back to the initial delay, without a second immediate attempt |
| `Backoff.AfterCalls` | crates/common/src/network/backoff.rs:49-79 | over every call sequence the current delay stays between the initial and the maximum delay |
| `Backoff.DelaysAreBounded` | crates/common/src/network/backoff.rs:49-73 | every delay is zero or at least the initial delay, and at most the maximum plus the jitter |
| `Backoff.DelaysGrowBetweenResets` | crates/common/src/network/backoff.rs:66-70 | between resets the delay without jitter never shrinks |
| `Backoff.ZeroDelaysExactly` | crates/common/src/network/backoff.rs:50-53 | over any calls there is one zero delay if immediate reconnect is on and the first call takes it, else none |
| `Backoff.DelayIsSkippedExactly` | crates/common/src/network/backoff.rs:50-66 | a call skips its delay only on the immediate attempt and only from the initial delay; any other returns the current delay plus jitter |
| `Backoff.CallsAdvance` | crates/common/src/network/backoff.rs:49-73 | once the immediate attempt is spent, k calls between resets are k advances |
| `Backoff.IntegerFactorLaw` | crates/common/src/network/backoff.rs:68-70 | with an integer factor f, k advances give min(max, initial * f^k) |
| `Backoff.DelaysFollowPowers` | crates/common/src/network/backoff.rs:49-73 | with an integer factor f the k-th delay returned is min(max, initial * f^k) plus the clock modulo jitter + 1 |
| `Backoff.ImmediateThenPowers` | crates/common/src/network/backoff.rs:49-73 | with the immediate attempt still to come the first delay is zero and the same powers follow from the second on |
| `Backoff.DelaysNeverShrink` | crates/common/src/network/backoff.rs:49-73 | for any factor, without jitter and resets, the delays returned never shrink |
| `Backoff.DelaysStartOver` | crates/common/src/network/backoff.rs:76-79 | after a reset, whatever came before, they start over from the initial delay |
| `Reconnect.Controller.TryReconnect` | crates/common/src/network/tcp_client/client.rs:226-275 | one reconnect up to the new reader: refused over budget, else one sleep and one connect; it goes through only with a reachable peer and a writer to swap |
| `Reconnect.Controller.FinishReconnect` | crates/common/src/network/tcp_client/client.rs:277-297 | the rest of it: delays and budget are reset, the connection is marked active, and the buffer is replayed if the writer is still there |
| `Reconnect.Controller.ReaderStopped` | crates/common/src/network/tcp_client/client.rs:185-190 | a stopping reader begins an outage only if it finds the connection marked active |
| `Reconnect.Controller.OnEvent` | crates/common/src/network/tcp_client/client.rs:480-527 | each event does its step of the state machine; the attempt that is over budget closes the client |
| `Reconnect.Controller.Serve` | crates/common/src/network/tcp_client/client.rs:480-527 | through any events the client is a run of the state machine and sleeps at most one maximal delay per connect; within an outage, with a limit of m, that is at most m connects and m maximal delays |
| `Reconnect.OutageLaw` | crates/common/src/network/tcp_client/client.rs:507-525 | with a limit of m, reader and writer stopping anywhere: an outage connects exactly when one of its first m attempts finds the peer reachable and the writer there; until then it makes a connect for each of the first m attempts, and the next one closes the client |
| `Reconnect.OutageStaysInBudget` | crates/common/src/network/tcp_client/client.rs:226-232 | no outage makes more than m connects before it is over |
| `Reconnect.ClosedForGood` | crates/common/src/network/tcp_client/client.rs:507-525 | over every run the buffer is replayed once for each reconnect completed while the writer was there |
| `Reconnect.ReplaysExactly` | crates/common/src/network/tcp_client/client.rs:277-297 | a login in the main loop whose resubscription is refused leaves the exchange subscribed to nothing |
| `Reconnect.OutageIsLostExactly` | crates/common/src/network/tcp_client/client.rs:185-190 | over every run: marked active without a reader exactly when a reader stopped between a successful connect and its mark |
| `Reconnect.LostForGood` | crates/common/src/network/tcp_client/client.rs:185-190 | no step leads out of that state, and no connect is made in it |
| `Reconnect.OutageCanBeLost` | crates/common/src/network/tcp_client/client.rs:266-278 | a run of four events that reaches it |
| `Reconnect.FailingOutageTerminates` | crates/common/src/network/tcp_client/client.rs:514-523 | against a peer that always fails, m + 1 calls reach Closed after exactly m connects |
| `Reconnect.OutageWithoutWriterCloses` | crates/common/src/network/tcp_client/client.rs:261-264 | an outage that begins after the writer stopped never connects, however reachable the peer: with a limit of m it closes after m connects |
| `Reconnect.NoWriterNoReturn` | crates/common/src/network/tcp_client/client.rs:193-224 | with or without a limit, once the writer is gone a connection that is down stays down |
| `Sessions.RulesAreLastWins` | crates/server/src/actor/common.rs:101-114 | the loaded rule for a client and account is that of the last configuration entry naming both, trimmed |
| `Sessions.PaddedIdsHaveNoRule` | crates/server/src/session.rs:120-129 | ids in requests are not trimmed: one with white space around it never has a rule |
| `Sessions.TrimExactly` | crates/server/src/actor/common.rs:101-114 | trimming drops white space on both sides, all of it, and nothing else |
| `Sessions.WhitespaceExactly` | crates/server/src/actor/common.rs:101-114 | the characters that count as white space |
| `Sessions.LoadConfig` | crates/server/src/actor/common.rs:101-114 | the nested loops load the specified rules |
| `Sessions.SessionManager.AllowClientAccount` | crates/server/src/session.rs:37-47 | the pair's rule is replaced and no other |
| `Sessions.SessionManager.BindAccount` | crates/server/src/session.rs:49-62 | account and subscriber are listed once each, the account only for a registered client |
| `Sessions.SessionManager.EnsureReadAccess` | crates/server/src/session.rs:80-98 | reading is allowed exactly for Full and QueryOnly |
| `Sessions.SessionManager.EnsureWriteAccess` | crates/server/src/session.rs:100-118 | writing is allowed exactly for Full and TradeOnly |
| `Sessions.BindKeepsSessions` | crates/server/src/session.rs:49-62 | a permitted binding keeps lists free of repeats, mutual, and backed by rules |
| `ServerState.RunKeepsSessions` | crates/server/src/session.rs:26-62 | over every run, re-registrations included: no repeats, every bound account lists its client, every subscription has a rule |
| `ServerState.MailboxesHoldAuthorisedRequests` | crates/server/src/actor/trade.rs:34-214 | in every reachable state an account's mailbox holds the commands of exactly the requests the configuration authorises for it, in order, from its first login on |
| `ServerState.EveryCommandIsAuthorised` | crates/server/src/actor/trade.rs:72-214 | every command ever in a mailbox came from a request for that account by a client its rule permits |
| `Permissions.MailboxIsWhatWasPermitted` | crates/server/src/actor/trade.rs:34-214 | in every reachable state a mailbox holds, in arrival order and each once, what the permitted requests for its account asked for, from the first permitted login on; permitted is spelled out by request and rule |
| `Permissions.MailboxCommandIsPermitted` | crates/server/src/actor/trade.rs:72-214 | each order, cancel or logout in a mailbox came from a client with a full or trade-only rule, each query from one with a full or query-only rule, each login from one with any rule |
| `Permissions.UnpermittedChangesNothing` | crates/server/src/session.rs:69-118 | a request outside its client's rule is denied and changes nothing |
| `Permissions.PermittedIsTakenExactly` | crates/server/src/actor/trade.rs:96-110 | one within it is taken exactly when it is a login or the account has a mailbox, and the mailbox is open; it adds that command and nothing else |
| `Permissions.SessionMapsRecallRequests` | crates/server/src/session.rs:26-62 | over every run subscribers, bound accounts, channels and account states are what hellos and permitted logins made them |
| `AccountSystem.CallsTraceToRequests` | crates/server/src/actor/trade.rs:72-275 | over every run of server and actor together, the inserts, cancels and queries a session issues carry, one for one and in order, commands of the account's authorised requests, taken first in, first out |
| `AccountSystem.EveryCallIsAuthorised` | crates/server/src/actor/trade.rs:72-275 | behind every insert or cancel is a request for the account saying the same, from a client whose last rule is full or trade-only; behind every query one whose last rule is full or query-only |
| `AccountSystem.CallsCarryCommandsTaken` | crates/server/src/actor/trade.rs:227-275 | each insert, cancel or query carries one command the actor took, in the order it took them |
| `ServerState.ServerActorState.BindAccount` | crates/server/src/actor/trade.rs:35-70 | access check, binding, mailbox creation, then delivery or the Error state |
| `ServerState.ServerActorState.SendTradeCommand` | crates/server/src/actor/trade.rs:96-110 | delivery to an existing open mailbox, else an error and no change |
| `ServerState.ServerActorState.PlaceOrder` | crates/server/src/actor/trade.rs:72-94 | needs write access; otherwise nothing changes |
| `ServerState.ServerActorState.CancelOrder` | crates/server/src/actor/trade.rs:112-125 | needs write access; otherwise nothing changes |
| `ServerState.ServerActorState.Query` | crates/server/src/actor/trade.rs:127-199 | needs read access; otherwise nothing changes |
| `ServerState.ServerActorState.LogoutAccount` | crates/server/src/actor/trade.rs:201-213 | needs write access; otherwise nothing changes |
| `ServerState.ServerActorState.HandleRequest` | crates/server/src/adapter/internal/tcp_server.rs:135-312 | each request goes to its entry point |
| `ServerState.ServerActorState.Serve` | crates/server/src/adapter/internal/tcp_server.rs:75-119 | handling requests one after another is the run of the state machine |

## Left out

- CTP structures, dynamic library loading and API release: foreign code; an exchange call is reduced to success or failure, and error messages built from return codes to one fixed text.
- Sockets, tasks, timers and logging: byte streams, interleavings and sleep durations are values. Channels do not close under their reader, except account mailboxes, whose state is an input, and the TCP client's writer.
- JSON, request UUIDs and timestamps: an envelope is its kind, client id and data; `updated_at` and the like are not part of this model. Whether handling a received payload succeeds is a function of the payload.
- The four query answers (`QueryAccountReady`, `QueryPositionsReady`, `QueryOrdersReady`, `QueryTradesReady`) are one constructor tagged with its kind, as are the four query commands and loops, which differ in nothing else that matters here.
- Field mappings from CTP records: whether a record translates is an input; only the zero-volume rule for positions is modelled. Fields that are only copied are cut down.
- The client shown for a queried order the registry does not know is any registered client in the code (map order); the model keeps the set of candidates.
- The market-data client's map lists its instruments in key order; the model leaves the order open, as it does for hash maps and sets.
- Replies of the TCP layer itself (acknowledgements, and errors -1, -2, -10 and -20 for a missing client id, an unsupported message or a refused request): only whether a request was taken, and why not, is kept.
- `close()` running concurrently with a reconnect, and the initial connect's retries.
- The market-data client's `connect` between its hello and the first update of the replay buffer: a reconnect that falls there replays nothing.
- NextDuration: the factor is a real number and delays are whole milliseconds, so the rounding of 64-bit floats is not modelled.
- TryReconnect: the attempt counter is unbounded, so its overflow after 2^32 attempts without a limit is not modelled.
- Configuration and credential loading, the demo client and the trading client's thin senders: they would only add easy members.
- Liveness of the login and query loops: it depends on the exchange answering.
