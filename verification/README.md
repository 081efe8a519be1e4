# Delivery assurance, health, consumption, sagas and topology: a verified model

This project models the concurrent core of the go-rabbitmq client library in Dafny and proves what
the library promises about it.

**Delivery assurance** (most of the project). A publisher registers each message under a key made of
its confirm channel's generation and the delivery tag the channel will give it, sends it, and settles
it by exactly one of: a broker ack, a nack, a return, the delivery timeout, the grace period of a
mandatory message, or the sweep of a dead channel. All of these race with each other, with the send,
with the replacement of the channel and with `Close`. The contract is at publisher.go:803-806: an error
means no callback, nil means exactly one. An earlier release broke it (go.mod:5-9). It is modelled in
three layers.

- `PendingMap` is the sharded two-index map, updated in place, with the one abstract map it stands for
  as a ghost field. `DeliveryKeys` is the key layout.
- `DeliveryCore` says what each lock-delimited section does to the publisher's bookkeeping;
  `DeliverySystem` interleaves those sections, one action each, with the broker, the wire, the timers
  (which carry a key, and can have fired without having run), the two readers of every generation, the
  sweep, the goroutines of `finishAsync` and `retryMessage`, the refresh and `Close`. It keeps a history
  (what the channel accepted and the broker answered, which callbacks ran) beside the bookkeeping.
  `DeliveryInvariant` is the inductive invariant; `DeliveryPreservation`, `PreserveHandlers`,
  `PreservePublish` and `PreserveRest` show that every action keeps it; `DeliveryTheorems` and
  `DeliveryHistory` draw the guarantees from it, the latter over whole runs. `DeliveryDecisions` says who
  decides a message and how: for each event, what it makes of the message in the state before it, by
  cases, and that the first decision stands in every run. `CallerDiscipline` says what
  callers can see to themselves, `Scenarios` builds executions in which they did not, and
  `DeliveryPromise` puts both together: exactly when the contract is kept, in terms of what is decided
  before a call. `DeliveryTimeouts` does so for one clause more: exactly when a reported timeout is that
  of the message's own timer. `DeliveryProgress` shows that a publisher left to itself comes to rest.
  `LockOrder` proves the locks deadlock-free.
- `Publisher` holds the mutable objects and proves that each method does to them what `DeliveryCore`
  says, including the sweep's walk and the retry loop of a whole publish call.

**Health verdicts.** `Timeline` and `Connection` (ClientState.dfy), `PublisherHealth` and
`ConsumerHealth` compose the pure `Assess` functions with the state machines that feed them. A history
is a list of timed events; the theorems say what a Stalled verdict means for every moment of the window
before it, and which histories lead to one.

**Consumption** (Consumer.dfy). `Settlement` is the gate that lets one settlement of a delivery through,
`MessageProcessing` the per-message path, `BatchConsumption` the select loop of `ConsumeBatch`,
`RetryTermination` the number of deliveries before a message is dead-lettered.

**Sagas.** `SagaCore` and `SagaRuns` (Saga.dfy) give the reachable states of a saga whose messages are
handled one at a time; `SagaManager` is the store and the manager that update sagas in place.

**Topology** (Topology.dfy). The registry, an abstract broker and the three phases of a validation pass.

## What is assumed of the world

- A channel numbers the sends it accepts 1, 2, 3, ... and rolls its counter back when a send fails
  (publisher.go:1405-1411). The broker answers only accepted tags, each once, and returns only mandatory
  messages.
- A return frame carries a message ID only. Where two calls (counting the ones that automatic retries
  make) share a message ID, the broker did return the undecided message that is filed under it when the
  frame is read. Nothing is assumed where IDs are not shared. Callers who give each mandatory message an
  ID of its own, and do not have mandatory messages retried automatically, need nothing assumed at all
  (`CallerDiscipline.CarefulIsRun`), and only they: see below.
- A delivery timer does not fire between being armed (publisher.go:1440) and the registration
  (publisher.go:1456); the two are one step.
- Nothing is assumed of which sends fail, nor with which error: in particular not that a channel that has
  refused a send as closed refuses every later one.
- There are fewer than 2^24 generations, and fewer than 2^40 publishes on each
  (`DeliveryKeys.KeyWrapsAtLimit` shows that the first limit is sharp).
- Installing a generation, including the reset of its failure streak (publisher.go:1377, 1386), is one
  step. So are a handler's lookup of a message and the locking of it (`DeliveryTheorems.ClaimedIsFinal`
  says why a handler that loses that race has no effect), and `Close` setting its flag and closing the
  shutdown channel.
- The health snapshot, the client state and the subscription records that one verdict looks at belong
  to the same moment.

## Where code and documentation differ

- If the republish of a nacked message fails, only `options.Callback` is told (publisher.go:2205-2208).
  A message that relies on the publisher's default callback then gets no signal, although its call
  returned nil. `DeliveryPromise.CalledBackExactly`: nil means exactly one callback if and only if the
  call brings a callback of its own or nothing is retried automatically.
- `handleReturn` matches by message ID alone (publisher.go:1928-1940). If a mandatory message shares its
  ID with another, a late return frame can claim the other one: its call returns an error after its
  callback has run, which breaks the contract at publisher.go:803-806
  (`DeliveryPromise.SharedIdBreaksContract`). `DeliveryPromise.KeptExactly`: the contract is kept in every
  execution, and every success, nack and failure that a callback reports did happen, if and only if no
  mandatory message shares its ID with another, nor is retried under it. Timeouts are the next point.
- A failed send's timer may have fired before it was stopped (publisher.go:1424, 1491-1494). It then runs
  against the next message registered under the same tag, which is reported as timed out at once
  (`Scenarios.StaleTimerTimesOutAnother`); that message may be the same call's, if its channel was not
  replaced before it tried again (publisher.go:1004-1012). `DeliveryTimeouts.OwnTimeoutsExactly`: every
  timeout is the message's own in every execution if and only if no call is made, or a single one with
  AutoReconnect off.
- A saga that fails at its first step, or whose first step has no compensation handler, never becomes
  Compensated (`SagaRuns.CompensatedExactly`). A saga can complete if and only if it has steps, their IDs
  differ and each action has a handler (`SagaRuns.CanCompleteExactly`). A step handler that panics leaves
  its saga waiting for good. While a saga is being compensated `UpdateSagaStep` sets its state back to
  Failed.
- One validation pass does not always make every queue exist. `Topology.OnePassExactly` gives the exact
  condition, `Topology.OnePassCanFail` a topology that fails it, and `Topology.Validator.ValidateTwice`
  shows that two passes always do. `Topology.OnePassIsAlwaysEnoughExactly`: one pass is enough whatever was
  missing if and only if each dead-letter exchange is none, is registered, or has no registered binding.
- A message that always fails is not always dead-lettered. A classic queue consumed as a quorum queue
  delivers it for ever (`RetryTermination.ClassicTreatedAsQuorumNeverEnds`); so does a classic queue declared
  as one if the message already carries an x-delivery-count, which its copies keep and which hides
  x-retry-count (consumer.go:1097-1106, 1139-1148; `RetryTermination.CarriedCountNeverEnds`).
  `RetryTermination.RetriesEndExactly` gives the exact condition, for every message.

## Model

| member | source | states |
|---|---|---|
| DeliveryKeys.KeyCollision | publisher.go:1293-1307 | two keys are the same number exactly when generation and tag agree modulo 2^24 and 2^40 |
| DeliveryKeys.KeyInjective | publisher.go:1293-1307 | within the documented limits a key names one generation and one tag |
| DeliveryKeys.KeyBitsRoundTrip | publisher.go:1305-1307 | both halves can be read back from the 64-bit word, for every word |
| DeliveryKeys.KeyWrapsAtLimit | publisher.go:1293-1298 | the generation limit is sharp: generation 2^24 reuses the keys of generation 0 |
| PendingMap.NewShardedPendingMap | pending_map.go:28-35 | a new map has 32 empty shards and stands for the empty map |
| PendingMap.ShardedPendingMap.Store | pending_map.go:52-84 | refuses a message ID already present and changes nothing; else adds the entry to both indexes of the one abstract map, each half in the shard it hashes to |
| PendingMap.ShardedPendingMap.Delete | pending_map.go:105-126 | removes exactly the given ID and the given key from the abstract map |
| PendingMap.ShardedPendingMap.LoadByMessageID | pending_map.go:87-93 | finds an entry exactly when the abstract map has the ID, and then that entry |
| PendingMap.ShardedPendingMap.LoadByDeliveryTag | pending_map.go:96-102 | finds an entry exactly when the abstract map has the key, and then that entry |
| PendingMap.ShardedPendingMap.Count | pending_map.go:129-137 | the sum over the shards is the size of the abstract map, whatever the hash |
| PendingMap.ShardedPendingMap.RangeShard | pending_map.go:141-152 | one shard's entries, each once, all of them unless the callback stops the walk |
| PendingMap.ShardedPendingMap.Range | pending_map.go:141-152 | visits every entry of the map exactly once, or stops right after the first one at which the callback says so |
| PreserveHandlers.TimeOutFlow | publisher.go:2282-2338 | a timeout keeps a message's flags, claim, timers and history consistent: it claims, or defers to the send in flight, or does nothing |
| PreserveHandlers.GraceFlow | publisher.go:2218-2279 | grace expiry does so too, and only ever claims success for a message the broker acked |
| PreserveHandlers.ConfirmFlow | publisher.go:1888-1922 | a first answer to an accepted tag does so too, ack or nack, whether or not the message is still pending |
| PreserveHandlers.ReturnFlow | publisher.go:1925-1988 | a return of a message the broker did return does so too |
| PreserveHandlers.OrphanFlow | publisher.go:1832-1864 | settling an orphan of a dead generation does so too |
| PreserveHandlers.KeyFinds | publisher.go:1888-1922 | the message a key leads to is the filed one with that generation and that tag |
| PreserveHandlers.AcceptedKeyFinds | publisher.go:1432-1438 | a confirm's key leads to the very message the broker numbered with that tag, or to nothing |
| PreserveHandlers.GraceKeyIsOwn | publisher.go:2019-2035 | a grace timer's key leads back to its own message or to nothing, however late it runs |
| PreserveHandlers.OneLiveReg | publisher.go:945-1020 | however often a call retries, at most one of its attempts was not given up by its own failed send |
| PreserveHandlers.UnsharedIsMeant | publisher.go:1925-1940 | unless two calls share the message ID, matching a return by it finds the message the broker returned, or none that is undecided |
| PreserveRest.RetryHasAttemptsLeft | publisher.go:2120-2150 | a retry that was queued has an attempt left: the branch for exceeded retries is unreachable |
| PreserveRest.NotOvertaken | publisher.go:1645-1655 | the branch in which someone else replaced the channel is unreachable while refreshMu is held |
| PreserveRest.StepPreserves | publisher.go:1416-1532 | every action of every goroutine, timer and broker keeps the invariant |
| PreserveRest.RunInvariant | publisher.go:829-1027 | the invariant holds in every state of every run |
| DeliveryTheorems.AtMostOneSignal | publisher.go:803-806 | no two callbacks run for one user call, over all the retries the publisher makes of it |
| DeliveryTheorems.ErrorMeansSilence | publisher.go:803-806 | a call that returned an error has run no callback, none of its sends was accepted, and none is still registered |
| DeliveryTheorems.NilMeansOneAccepted | publisher.go:945-1027 | a call that returned nil had exactly one accepted send; every other attempt of it is deregistered |
| DeliveryTheorems.ClaimedIsFinal | publisher.go:1992-2116 | a handler that reaches a message already claimed changes neither claim, timers, goroutine nor statistics |
| DeliveryTheorems.NoStuckMessage | publisher.go:1440-1517 | while the publisher is open every undecided registered message has an armed or fired timer, or its own send still has to deal with it, and is found under its own key |
| DeliveryTheorems.QuiescentMapIsEmpty | publisher.go:2282-2304 | when nothing runs and no timer is live the pending map is empty and every published message has a counted outcome |
| DeliveryTheorems.NotQuiescentCanMove | publisher.go:1416-1532 | as long as it is not quiescent the publisher can go on by itself, whatever the broker does |
| DeliveryTheorems.ChainEnds | publisher.go:2120-2214 | following the retries of an accepted call ends at a callback, or at a failed republish with nobody to tell |
| DeliveryTheorems.SignalledIfHeard | publisher.go:803-806 | a quiescent open publisher has run a callback for every accepted call that brought its own, and for every accepted call when nothing is retried |
| DeliveryTheorems.RetriesAreBounded | publisher.go:2096-2109 | one user call causes at most 1 + maxRetryAttempts accepted publishes whatever the broker nacks, and at most one with retries off |
| DeliveryTheorems.AttemptsAreBounded | publisher.go:945-1020 | a call makes no more reconnect attempts than configured |
| DeliveryTheorems.OutcomeIsSound | publisher.go:1888-1922 | success is reported only if the broker acked the tag the message's own channel gave its send, and of a mandatory message only after its grace timer ran; a nack only if it refused that tag and no retry is left; a failure only after a return, a failed retry, or the death of a channel that never answered; a timeout only if the message's own timer ran out or the timer of an attempt given up did run under its key |
| DeliveryTheorems.TagIsTheOneRegistered | publisher.go:1518-1529 | the channel gives a send exactly the tag it was registered under, so the re-keying branch is unreachable, and the publisher's counter agrees with the channel |
| DeliveryTheorems.FutureKeysAreFree | publisher.go:1432-1458 | between attempts no key that a future publish will use is taken, on any generation |
| DeliveryTheorems.SweepIsComplete | publisher.go:1787-1819 | after the sweep every entry of the dead generation is claimed, or acked and waiting out its grace period, or left to its own send, although the walk is no snapshot |
| DeliveryTheorems.OutcomesAreConserved | types.go:701-706 | published equals confirmed + returned + nacked + timed out + orphaned + the undecided entries of the pending map, across rollbacks and retries |
| DeliveryTheorems.CountersAreExact | publisher.go:2072-2086 | in every reachable state each of the five counters is the number of messages decided that way |
| DeliveryTheorems.LookupsAgree | pending_map.go:52-126 | under the publisher's own Store and Delete calls both indexes hold the same entries, and lookups by either agree |
| DeliveryHistory.DeliveryContract | publisher.go:803-806 | over any run: after an error was returned no callback ever runs for that call, no call ever gets two, and none is taken back |
| DeliveryHistory.AcceptedMeansOneSignal | publisher.go:803-806 | in a quiescent state of a run an accepted call has had exactly one callback, if it brought its own or nothing is retried; and in any case unless a retry of it failed with nobody to tell |
| DeliveryHistory.RejectedForever | publisher.go:803-806 | a call that has returned an error stays rejected for the rest of the run |
| DeliveryHistory.OneSuccessor | publisher.go:1586-1664 | each install succeeds the generation its refresh saw fail, with the next number, and no failed generation has two successors |
| DeliveryHistory.ChannelsAccountedFor | publisher.go:1610-1664 | every channel a refresh opened is installed, discarded or in the hands of the one refresh under way; a replaced channel is closed or about to be |
| DeliveryHistory.NothingAfterBarrier | publisher.go:1090-1102 | past the barrier in Close nothing is registered and no generation installed, however the run goes on |
| DeliveryHistory.NothingRegisteredOnDead | publisher.go:1444-1457 | once a generation is marked dead nothing is ever registered on it again |
| DeliveryHistory.DeleteHitsItsOwn | publisher.go:1872-1885 | a late Delete removes the registration it was meant for and no newer one with the same message ID |
| DeliveryDecisions.AnswerDecides | publisher.go:1888-1922 | an ack decides a plain undecided message as delivered at once and leaves a mandatory one undecided with its grace timer armed in place of its delivery timer; a nack decides either, to be retried exactly if retries are on and attempts are left; no other message is touched |
| DeliveryDecisions.ReturnDecides | publisher.go:1925-1988 | a return frame makes the undecided message the broker returned a failure, acked or not; any other it touches was returned too |
| DeliveryDecisions.TimeoutDecides | publisher.go:2282-2338 | a delivery timer times out its own undecided message, or leaves that to the send in flight |
| DeliveryDecisions.GraceDecides | publisher.go:2218-2279 | a grace timer makes its own undecided message a success |
| DeliveryDecisions.SweepDecides | publisher.go:1832-1864 | the sweep makes an unanswered message a failure, or leaves that to the send in flight; an acked one it leaves alone |
| DeliveryDecisions.SenderLearns | publisher.go:1476-1503 | when the wire call ends its sender is left the sweep's verdict, and a timeout only if nothing was heard meanwhile; a failed send is claimed for the caller |
| DeliveryDecisions.SenderDecides | publisher.go:1505-1517 | the sender decides what was left to it unless something else has: an orphan before a timeout; its call then returns nil |
| DeliveryDecisions.NothingElseDecides | publisher.go:1992-2116 | no other event changes what any message has been decided as |
| DeliveryDecisions.FirstDecisionStands | publisher.go:1992-2116 | over any run: once a message is decided it stays so, and its callback, whenever it runs, tells just that |
| DeliveryDecisions.ReturnedHasFailed | publisher.go:1967-1988 | over any run: a message still undecided when its return frame is read has failed for good, and its callback says so, even after an ack |
| DeliveryDecisions.AttemptBegins | publisher.go:1416-1438 | an attempt fails with the publisher closed, the channel closed or the context done, checked in this order, and else goes on to register |
| DeliveryDecisions.AttemptRegisters | publisher.go:1440-1461 | it then fails on a dead generation, or else on a taken ID, and else is filed undecided, in flight, its timer armed, under the channel's next tag |
| DeliveryDecisions.MayTryAgainExactly | publisher.go:945-1020 | a failed attempt may be followed by another if and only if the channel was at fault, AutoReconnect is on and attempts are left |
| DeliveryDecisions.FatalErrorsEnd | publisher.go:957-1020 | after any other failure the call can only return an error, whatever happens |
| DeliveryDecisions.FailedSendIsTakenBack | publisher.go:1491-1503 | a failed send loses its entry, then its timer, and then its call learns the error the wire gave |
| DeliveryDecisions.CloseStopsTimers | publisher.go:1123-1131 | Close leaves no timer armed on the message it comes to, and touches no other |
| DeliveryDecisions.NewChannelIsPrepared | publisher.go:1635-1642 | an opened channel is made ready, or closed again if that fails or the publisher was closed |
| DeliveryDecisions.NewChannelIsInstalled | publisher.go:1644-1664 | a ready channel becomes the next generation, live and empty, and the old one is left to be closed, unless the publisher was closed meanwhile; messages, map and statistics stay as they are |
| CallerDiscipline.CarefulIsRun | publisher.go:1925-1940 | if no mandatory message shares its ID or is retried, nothing has to be assumed of return frames: every execution is a run, and all guarantees hold |
| DeliveryPromise.KeptExactly | publisher.go:803-806 | for every configuration and all calls made: no error with a callback, no two callbacks, and no success, nack or failure reported that did not happen, in every execution, if and only if no mandatory message shares its ID with another nor is retried under it; of timeouts it says no more than OutcomeIsSound |
| DeliveryPromise.SharedIdBreaksContract | publisher.go:1925-1940 | whenever a mandatory message shares its ID with another, some execution ends with one of the calls having returned an error after its callback ran |
| DeliveryPromise.CalledBackExactly | publisher.go:2199-2208 | for every configuration and every call: nil means exactly one callback in every run if and only if the call brings its own callback or nothing is retried |
| Scenarios.StaleTimerTimesOutAnother | publisher.go:1491-1494 | an execution in which the timer of a failed send times out the next message under its key, another call's or the same call's next attempt, whose own timer is still armed |
| DeliveryTimeouts.OwnTimeoutsExactly | publisher.go:2282-2338 | for every configuration and all calls made: no message is claimed as timed out before its own timer ran, in every execution, if and only if no call is made, or one call with AutoReconnect off |
| DeliveryProgress.InternalEnds | publisher.go:945-1020 | with reconnect attempts bounded, every action of the publisher's own callers, timers (those of refused attempts too), goroutines and sweeps leaves less to be done |
| DeliveryProgress.ComesToRest | publisher.go:803-806 | left to itself from any reachable state the publisher makes a bounded number of actions, and can make another one until it is quiescent, no timer is left to run and every dead channel is swept |
| Publisher.TryFinalizeMessage | publisher.go:1992-2116 | decides a message in place as DeliveryCore.TryFinalize does: nack before return before confirm, a mandatory confirm waits, each outcome booked once |
| Publisher.ConfirmMessage | publisher.go:1905-1922 | records an answer and decides as TryFinalize, booking the outcome exactly when the message becomes claimed |
| Publisher.ReturnMessage | publisher.go:1940-1988 | records a return of an undecided message and decides it; leaves a decided one alone |
| Publisher.TimeOutMessage | publisher.go:2290-2338 | claims an undecided message as timed out, or leaves it to the send in flight |
| Publisher.ExpireGrace | publisher.go:2225-2279 | claims an undecided, unreturned message as confirmed |
| Publisher.OrphanMessage | publisher.go:1832-1864 | claims an undecided, unanswered message as orphaned, or leaves it to the send in flight |
| Publisher.OrphanKeepsAccount | publisher.go:1856-1859 | orphaning any message keeps counted outcomes plus undecided messages constant |
| Publisher.SentAddsUp | publisher.go:1444-1517 | the sections of an accepted send add up to one more message filed, published and numbered |
| Publisher.FailedAddsUp | publisher.go:1491-1503 | the sections of a failed send add up to nothing: map, statistics and numbering are as before |
| Publisher.AttemptedAddsUp | publisher.go:1416-1532 | an attempt leaves exactly one message more or nothing at all |
| Publisher.VerdictByCases | publisher.go:1416-1532 | which of the five errors an attempt ends with, and when it is delivered, by cases in both directions |
| Publisher.VerdictIsTheSystems | publisher.go:1416-1461 | an attempt that nothing interferes with ends with the very error the sections of DeliverySystem give it |
| Publisher.DeliveryPublisher.HandleConfirmation | publisher.go:1888-1922 | does to the objects what DeliveryCore.HandleConfirmation does to their value, and touches no other message |
| Publisher.DeliveryPublisher.HandleReturn | publisher.go:1925-1988 | the same for DeliveryCore.HandleReturn |
| Publisher.DeliveryPublisher.HandleTimeout | publisher.go:2282-2338 | the same for DeliveryCore.HandleTimeout |
| Publisher.DeliveryPublisher.HandleMandatoryGracePeriodExpired | publisher.go:2218-2279 | the same for DeliveryCore.HandleGraceExpired |
| Publisher.DeliveryPublisher.SettleOrphan | publisher.go:1832-1864 | the same for DeliveryCore.SettleOrphan |
| Publisher.DeliveryPublisher.CollectOrphans | publisher.go:1808-1815 | collects the registered entries of the generation, all of them and nothing else |
| Publisher.DeliveryPublisher.FailOrphans | publisher.go:1772-1827 | every entry of the generation is settled or deferred, no other message is touched, each is counted once, and the generation is dead |
| Publisher.DeliveryPublisher.Register | publisher.go:1449-1461 | refuses on a dead generation or a taken message ID, changing nothing; else files the attempt under the next tag |
| Publisher.DeliveryPublisher.SendReturned | publisher.go:1476-1489 | reads the deferral flags and claims a failed send for its caller |
| Publisher.DeliveryPublisher.Deregister | publisher.go:1872-1885 | removes the registration's entry from both indexes |
| Publisher.DeliveryPublisher.Install | publisher.go:1365-1394 | appends an empty live generation with the next number and makes it current |
| Publisher.DeliveryPublisher.SettleDeferred | publisher.go:1505-1517 | settles what was left to an accepted send, an orphan before a timeout |
| Publisher.DeliveryPublisher.PublishTracked | publisher.go:1416-1532 | says by its result what came of the attempt, and leaves one more message if it was accepted, nothing otherwise |
| Publisher.DeliveryPublisher.RefreshConfirmChannel | publisher.go:1586-1676 | installs a successor exactly if the publisher is open, the failed generation is still current and a channel could be opened |
| Publisher.DeliveryPublisher.PublishWithDeliveryAssurance | publisher.go:945-1020 | the retry loop ends by success, by a failure that may not be retried, or at its limit; another attempt follows exactly a channel error with the context alive, AutoReconnect on and attempts left; only the last can leave a message, failed ones leave nothing |
| LockOrder.TwoShardsNested | pending_map.go:67-75 | the two shards of an entry are locked in ascending order |
| LockOrder.CallNested | publisher.go:63-67 | every call acquires its locks in the one documented order |
| LockOrder.CallsNested | publisher.go:63-67 | so does any sequence of calls one goroutine makes |
| LockOrder.NoDeadlock | publisher.go:63-67 | in every interleaving of any number of goroutines either all are done or one can go on, and no interleaving is longer than their lock operations together |
| LockOrder.CallsFinish | publisher.go:63-67 | a longest interleaving has finished every call |
| LockOrder.InspectInsideDeadlocks | publisher_health.go:99-114 | inspecting an entry under its shard's lock could deadlock with a re-key, which is why DeliveryHealth collects first |
| Timeline.LatestOf | health.go:81-89 | the latest of its arguments |
| Connection.ConnectedExactly | client.go:106-155 | the client counts as connected if and only if the connection it made last has not been lost, whatever watchers of earlier connections report |
| Connection.UpThroughout | client.go:106-155 | connected since no later than some moment means on this one connection at every moment after it |
| Connection.UnblockedThroughout | client.go:121-154 | not blocked, and last unblocked no later than that, means blocked at no moment after it |
| Connection.GaveUpMeansDown | client.go:658-735 | a client that gave up, which it does only while disconnected, is disconnected |
| Connection.BlockedExactly | client.go:121-136 | a connected client is blocked if and only if its current connection reported a block and since then neither the end of it nor its own loss |
| Connection.GaveUpExactly | client.go:676-690 | it has given up if and only if it ran out of attempts and has not connected since |
| Connection.ReconnectingExactly | client.go:658-671 | it is reconnecting if and only if that was the last thing said of it |
| Connection.Client.MarkConnected | client.go:106-117 | the state describes the new connection, unblocked and not given up |
| Connection.Client.OnBlocking | client.go:121-136 | a blocking notification counts only if it comes from the current connection |
| Connection.Client.OnClose | client.go:138-154 | a loss counts only if it comes from the current connection; one without an error keeps the last error |
| Connection.Client.HandleReconnection | client.go:658-735 | dials no more often than the cap, connects by the first dial that succeeds, gives up only at the cap, and always lowers the reconnecting flag |
| PublisherHealth.PublishClockIsExact | publisher_health.go:145-155 | the publish clock is later than a moment if and only if something was published later than it |
| PublisherHealth.SilenceClocksAreExact | publisher_health.go:139-155 | the response and channel clocks are no later than a moment if and only if no response was read and no channel installed since |
| PublisherHealth.FailuresAreExact | publisher_health.go:160-166 | the failure count is the number of failures of the current channel since the broker last answered |
| PublisherHealth.StalledByClocks | publisher_health.go:351-395 | the snapshot's clocks for which the verdict is Stalled, in both directions |
| PublisherHealth.OkByClocks | publisher_health.go:351-395 | the clocks, counts and flags for which the verdict is Ok, in both directions; every other verdict but Stalled is Degraded |
| PublisherHealth.StalledExactly | publisher_health.go:351-395 | the verdict is Stalled for exactly the histories in which the broker was silent all window while at least MinFailures messages of the current channel failed and something was published, over a connection that passes the guard |
| PublisherHealth.StalledMeansHealthyConnection | health.go:67-79 | Stalled means one connection, up and not blocked, and one confirm channel at every moment of the window |
| PublisherHealth.Monitor.NotePublish | publisher.go:1505-1506 | records a publish as the event does |
| PublisherHealth.Monitor.NoteResponse | publisher_health.go:139-142 | records a response and ends the failure streak |
| PublisherHealth.Monitor.NoteFailure | publisher_health.go:160-166 | counts a failure of the current channel and ignores one of an older channel |
| PublisherHealth.Monitor.InstallGeneration | publisher.go:1375-1386 | starts a new channel with no failures |
| PublisherHealth.InspectPending | publisher_health.go:99-114 | the greatest age and the longest timeout over the undecided entries, and over no others |
| PublisherHealth.BackoffDoubles | publisher_health.go:200-257 | the keeper's wait doubles up to its ceiling |
| PublisherHealth.WaitsByCases | publisher_health.go:200-257 | how long the keeper waits after each kind of look: a second while there is nothing to try, a quarter of one when the connection is busy or the first refresh has failed, and after each further failure twice the last wait, up to thirty seconds |
| PublisherHealth.RunConfirmKeeper | publisher_health.go:200-257 | tries a refresh at each look at which the client is connected, not reconnecting and the publisher open, and at no other; waits as the back-off prescribes; ends as replaced or stopped exactly at the first look that shows a success, a replacement, a closed publisher or shutdown, and otherwise keeps trying |
| ConsumerHealth.SinceIsKept | consumer_health.go:169-185 | once begun, the moment consuming stopped is zero if and only if some subscription is live, after any events |
| ConsumerHealth.StaleCancel | consumer_health.go:237-247 | a cancel from a channel the subscription no longer uses leaves since, the flags and every subscription as they were |
| ConsumerHealth.StaleCancelChangesNothing | consumer_health.go:235-247 | dropping a stale cancel from any history changes no snapshot that can be taken at its end, and so no verdict |
| ConsumerHealth.SinceIsExact | consumer_health.go:179-185 | that moment is the one at which the last live subscription went away, or consuming began without one, and nothing has been live since |
| ConsumerHealth.IdleThroughout | consumer_health.go:179-185 | if it is no later than some moment, no subscription was live at any moment after it |
| ConsumerHealth.LiveExactly | consumer_health.go:187-247 | a subscription is live if and only if since it was last made consumption has not ended, it was not closed, and no cancel was read on its channel |
| ConsumerHealth.CancelledExactly | consumer_health.go:237-247 | it was cancelled by the broker if and only if a cancel was read on its channel since it was made |
| ConsumerHealth.NeverMade | consumer_health.go:187-196 | one not made since consuming began is not live |
| ConsumerHealth.FailuresAreExact | consumer_health.go:250-259 | its failure count is the number of attempts that failed since it was last made or consuming began |
| ConsumerHealth.ErrorIsLatest | consumer_health.go:250-259 | its error code and time are those of the last such failure |
| ConsumerHealth.StoppedExactly | consumer_health.go:202-210 | consumption counts as stopped if and only if it was ended on purpose and nothing was begun or ended since |
| ConsumerHealth.StalledBySnapshot | consumer_health.go:398-440 | the snapshots for which the verdict is Stalled, in both directions |
| ConsumerHealth.OkBySnapshot | consumer_health.go:398-440 | the snapshots for which the verdict is Ok, in both directions |
| ConsumerHealth.StalledMeansIdle | consumer_health.go:398-440 | Stalled means no subscription was live and one connection was up for all of StallAfter, and the consumer was neither stopped nor refused |
| ConsumerHealth.IdleIsStalled | consumer_health.go:398-440 | conversely a consumer idle for the whole window on a trusted connection, neither stopped nor refused, is declared Stalled |
| ConsumerHealth.HealthRecord.AnyActiveLocked | consumer_health.go:169-176 | whether any subscription is live |
| ConsumerHealth.HealthRecord.RefreshSinceLocked | consumer_health.go:179-185 | clears the moment while something is live, sets it once when nothing is, and writes nothing else |
| ConsumerHealth.HealthRecord.Begin | consumer_health.go:187-196 | forgets earlier subscriptions and starts the clock |
| ConsumerHealth.HealthRecord.End | consumer_health.go:202-210 | no subscription is live any more, and the record says whether that was asked for |
| ConsumerHealth.HealthRecord.Subscribed | consumer_health.go:213-224 | the subscription is live on its channel and its failures are forgotten |
| ConsumerHealth.HealthRecord.Closed | consumer_health.go:227-233 | the subscription is no longer live |
| ConsumerHealth.HealthRecord.CancelledByBroker | consumer_health.go:237-247 | a cancel read on the current channel ends the subscription; one from another channel is ignored |
| ConsumerHealth.HealthRecord.Failed | consumer_health.go:250-259 | a failed attempt is counted with its code and moment |
| ConsumerHealth.HealthRecord.Health | consumer_health.go:298-341 | the snapshot's counts, flags, worst failure count and latest error code are true of the subscriptions, in whatever order they are visited |
| Settlement.SettleGate.Claim | consumer.go:187-195 | the first claim wins and every later one loses |
| Settlement.SettleWith | consumer.go:1221-1256 | Ack, Nack or Reject reaches the wire only if nothing has settled the delivery before |
| Settlement.SettleAll | consumer.go:187-195 | of any sequence of attempts to settle a delivery exactly the first reaches the wire |
| MessageProcessing.HandleProcessingError | consumer.go:951-1085 | an unsettled failure ends in exactly the one settlement, and at most the one republish, that error kind, retry count and queue type call for, by cases; a settled delivery or AutoAck in none |
| MessageProcessing.RetryCountByHeader | consumer.go:1090-1118 | which header the retry count is read from, and what it is without one |
| MessageProcessing.ProcessMessage | consumer.go:845-948 | with AutoAck off the delivery reaches the wire exactly once for any handler: by its first settlement by hand, else Ack for a success, Nack as the error says for a reject error, and what the retry rules call for after an error, a panic or an undecodable body |
| RetryTermination.ClassicTerminates | consumer.go:985-1069 | declared classic, an always failing message is dead-lettered by exactly delivery MaxRetries + 1 |
| RetryTermination.QuorumTerminates | consumer.go:985-1120 | on a quorum queue by exactly delivery MaxRetries + 2 |
| RetryTermination.ClassicTreatedAsQuorumNeverEnds | consumer.go:320-337 | a classic queue treated as quorum redelivers the unchanged message for ever |
| RetryTermination.CarriedCountNeverEnds | consumer.go:1090-1148 | a message that comes with a delivery count is republished for ever on a classic queue declared as one |
| RetryTermination.RetriesEndExactly | consumer.go:985-1148 | for every configuration, real queue type and headers: a message that always fails is dead-lettered in the end if and only if, with MaxRetries set, its count has reached it, or it is declared classic and carries no delivery count, or declared quorum and on a quorum queue; with MaxRetries unset, if failures are not requeued |
| RetryTermination.FateIsFinal | consumer.go:1062-1069 | a message that left the queue stays where it went |
| BatchConsumption.ExactlyOne | consumer.go:1540-1616 | what a batch leaves on the wire for a delivery is one operation, for any handler behaviour |
| BatchConsumption.FinalOpsSettle | consumer.go:1540-1616 | that operation is the first settlement by hand, or else Ack if the handler reported no error for the delivery and Reject if it did or panicked; with AutoAck on it is at most the handler's own |
| BatchConsumption.ErrorSlice | consumer.go:1557-1589 | one verdict per delivery: missing errors mean success, surplus ones are dropped, a panic fails all |
| BatchConsumption.RunHandler | consumer.go:1557-1575 | of the settlements a handler makes by hand the first of each delivery reaches the wire, and no other delivery is touched |
| BatchConsumption.SettleBatch | consumer.go:1591-1616 | each delivery not settled by hand is acknowledged if the handler reported no error for it and rejected if it did or panicked |
| BatchConsumption.ProcessBatch | consumer.go:1540-1616 | afterwards each delivery has on the wire its first settlement by hand, or else Ack for success and Reject for failure; with AutoAck on nothing but the handler's own; and nothing was sent for any other |
| BatchConsumption.AllSettledOnce | consumer.go:1445-1535 | with AutoAck off and nothing waiting, every delivery the loop took has exactly one operation on the wire |
| BatchConsumption.LoopProcesses | consumer.go:1521-1535 | handing the batch over keeps the account: all taken deliveries, in order, are in a batch, waiting, or rejected |
| BatchConsumption.OnDelivery | consumer.go:1473-1526 | after a delivery the waiting batch is again smaller than the batch size and unsettled, and the account holds |
| BatchConsumption.ConsumeBatch | consumer.go:1445-1535 | leaving by any exit arm, every delivery taken was handed over in order in batches of at most BatchSize (100 if unset) or rejected as undecodable, and settled exactly once: by hand, or else Ack for success and Reject for failure |
| SagaRuns.RunShape | saga/saga.go:571-813 | with distinct step IDs every reachable saga is a completed prefix going forward, or a failed step with the steps before it being undone in reverse; every message handled brings the end nearer |
| SagaRuns.ForwardOrder | saga/saga.go:571-700 | statuses are Completed then Started until a step fails; at most one execute message is outstanding and names the first open step; nothing goes forward after a failure; handlers ran in step order |
| SagaRuns.CalledInOrder | saga/saga.go:511-518 | when a step's message is next to be handled all earlier steps have completed |
| SagaRuns.CompletedExactly | saga/saga.go:394-466 | a saga is Completed if and only if it has steps and all of them are |
| SagaRuns.CompensationIsReverse | saga/saga.go:216-245 | if step k fails, compensation is published once each for steps k-1 down to 0 and for no other; without a failure for none |
| SagaRuns.CompensatedMeansUndone | saga/saga.go:785-813 | Compensated only when a step failed and none is still Completed |
| SagaRuns.CompensatedExactly | saga/saga.go:703-813 | with its queue drained a failed saga is Compensated if and only if it was not the first step that failed, the first step has a compensation handler and no step is left Completed; without panics none is |
| SagaRuns.FewMessages | saga/saga.go:571-813 | no saga causes more than two messages per step to be handled |
| SagaRuns.SharedIdNeverCompletes | saga/saga.go:394-420 | a saga in which two steps share an ID never completes, whatever its handlers do |
| SagaCore.UnknownStep | saga/saga.go:571-700 | a message naming no step of its saga changes nothing if its action has a handler, and otherwise starts compensation of the completed steps, last first |
| SagaRuns.CanCompleteExactly | saga/saga.go:394-466 | a saga can complete if and only if it has steps, their IDs differ, and each action has a handler |
| SagaManager.SagaRecord.GetNextStep | saga/saga.go:511-518 | the first step still to be executed |
| SagaManager.SagaRecord.Find | saga/saga.go:403-419 | where a step ID is found first |
| SagaManager.SagaRecord.DeriveState | saga/saga.go:424-443 | Failed if any step failed, Completed if all completed, else unchanged, although the pass stops early |
| SagaManager.InMemoryStore.SaveSaga | saga/saga.go:354-359 | the saga is stored under its ID and no other is affected |
| SagaManager.InMemoryStore.UpdateSagaStep | saga/saga.go:394-445 | changes the first step with that ID and derives the state; an unknown saga or step is an error and changes nothing |
| SagaManager.InMemoryStore.UpdateSagaState | saga/saga.go:448-466 | changes the state of a stored saga and nothing else |
| SagaManager.Manager.Start | saga/saga.go:167-213 | every step starts afresh, the saga is stored, and its first step, if any, is published |
| SagaManager.Manager.Compensate | saga/saga.go:216-245 | publishes the completed steps last first, and the state is Compensating |
| SagaManager.Manager.HandleStepMessage | saga/saga.go:571-700 | does to the stored saga and both queues what SagaCore.HandleStep says; an unknown saga is ignored |
| SagaManager.Manager.HandleCompensationMessage | saga/saga.go:703-813 | does to the stored saga what SagaCore.HandleCompensation says |
| Topology.OnePassExactly | topology_validation.go:490-546 | phase 2 recreates every queue in every listing order if and only if no missing queue dead-letters to a missing exchange with a registered binding to a missing queue |
| Topology.TwoPassesRecreate | topology_validation.go:490-546 | two passes recreate every registered queue, whatever was missing and in whatever orders |
| Topology.WaitingIsOver | topology_validation.go:606-646 | after one pass no queue waits for its dead-letter exchange any more |
| Topology.RegisteredNeverWaits | topology_validation.go:425-442 | if each dead-letter exchange is none, is registered or has no registered binding, no queue has to wait for one and one pass is enough |
| Topology.OnePassIsAlwaysEnoughExactly | topology_validation.go:425-442 | for every registry: phase 2 recreates every queue in every listing order whatever the broker had lost if and only if that holds |
| Topology.OnePassCanFail | topology_validation.go:490-546 | a topology for which one pass is not enough |
| Topology.Validator.RecreateExchangeBindings | topology_validation.go:669-686 | succeeds if and only if every queue bound to the exchange exists, and then restores all its bindings |
| Topology.Validator.RecreateExchange | topology_validation.go:354-377 | the exchange exists afterwards even when restoring its bindings fails |
| Topology.Validator.EnsureExchangeExists | topology_validation.go:606-646 | the exchange exists afterwards, declared only if it was missing; fails exactly when its bindings could not be restored |
| Topology.Validator.RecreateQueue | topology_validation.go:380-407 | the queue exists afterwards and no binding is lost |
| Topology.Validator.RecreateExchanges | topology_validation.go:445-487 | every registered exchange exists afterwards; nothing is declared if all did |
| Topology.Validator.RecreateMissingQueues | topology_validation.go:490-546 | adds exactly the queues RecreateQueues says, and registers no exchange it did not make |
| Topology.Validator.RestoreAllBindings | topology_validation.go:549-603 | every registered binding whose queue exists is restored if its exchange was there or all queues bound to that exchange are, whatever becomes of the other bindings; no binding is lost and none added that is not registered |
| Topology.Validator.PerformBackgroundValidation | topology_validation.go:425-442 | one pass makes everything the registry names exist unless a queue has to wait for its dead-letter exchange, loses nothing, and declares nothing when all exists |
| Topology.Validator.ValidateTwice | topology_validation.go:425-442 | two passes always do, whatever was missing |
| Topology.Validator.ValidateThrice | topology_validation.go:425-442 | a third pass then declares nothing |

## Left out

- Publisher.DeliveryPublisher.PublishWithDeliveryAssurance: a whole call with nothing interfering; all interference is in DeliverySystem, whose reachable states meet this method's preconditions on keys (DeliveryTheorems.FutureKeysAreFree).
- Publisher.DeliveryPublisher.PublishTracked: likewise with nothing interfering, so its deferral flags are never set here; DeliverySystem covers them.
- Publisher.DeliveryPublisher.FailOrphans: likewise; the walk that races with everything else is SweepShard and SweepSettle in DeliverySystem.
- Publisher.DeliveryPublisher.RefreshConfirmChannel: opening and preparing the channel is one flag here; their steps, failures and races are in DeliverySystem.
- DeliveryTheorems.TagIsTheOneRegistered: re-keying is proved unreachable; what it would race with, were it reached, is not modelled.
- LockOrder.NoDeadlock: connMu and Client.Close stay outside, readers' and writers' locks are treated as exclusive, and user callbacks, which run outside all locks, take none of these.
- PublisherHealth.InspectPending: the PendingMessages gauge, timestamps and the verdicts' reason strings are not modelled.
- ConsumerHealth.HealthRecord.Health: subscription records are values in a map, not shared objects; delivery and handler gauges are left out.
- Connection.GaveUpMeansDown: that the attempt cap is only reached while disconnected is a hypothesis; the watcher that clears the flag is a goroutine of its own, which the model does not order against the reconnect loop.
- Connection.Client.HandleReconnection: the waits between dials and the topology validation after one are left out.
- Settlement.SettleWith: a channel that refuses an Ack, Nack or Reject, and a handler that settles from another goroutine after it has returned.
- MessageProcessing.HandleProcessingError: the back-off wait before a retry, which no branch depends on, and metrics.
- RetryTermination.QuorumTerminates: a delivery limit set on the broker's side.
- BatchConsumption.ConsumeBatch: starting to consume, the deadlines of the batch timer and the returned error; decompression and decryption are one flag per delivery.
- SagaRuns.RunShape: each message is handled once and one at a time, and every publish succeeds.
- SagaManager.Manager.HandleStepMessage: JSON, queue names and publish failures; step IDs, actions and compensations are numbers.
- Topology.Validator.PerformBackgroundValidation: only existence; arguments, queue types and the broker's refusals are left out, as are ValidateQueue and ValidateExchange.
- A publisher with no default callback and a call without its own: there is then nothing to call, and a signal of the model calls nothing.
- The AMQP wire protocol, sockets, and the plain Publish path without delivery assurance.
- Compression and encryption, also of retried messages, which would be transformed twice.
- Logging, metrics, tracing, configuration from the environment, and saga.Manager.Run.
- The equality of the key computed on 64-bit words and the key as a number; each has its own lemmas.
- The pool, streams, protobuf, performance and shutdown packages: thin wrappers with easy properties.
