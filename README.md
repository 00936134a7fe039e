# JMAP client core, modelled in Dafny

This project models the core of the JMAP client library `libs/JMAP.js` of a
webmail demo and proves properties of that model. The core has two parts.

- **Connection and authority.** `JMAP.Connection` batches method calls,
  record fetches, refreshes, query fetches and commits into one JSON request.
  It tags each call with its position in the batch, and routes the server's
  responses to the response handlers and the callbacks of that batch.
  `JMAP.auth` decides whether a connection may send. It queues the
  connections that are waiting for authentication, and retries failed
  connections after an exponential back-off countdown.
- **Codecs and helpers.** `Date.prototype.toJSON`, `JMAP.Duration`,
  `JMAP.AmbiguousDate`, the query ids of the mail model (`stringifySorted`
  and `getId`), and the JSON Pointer paths of `makePatches`. Also
  `JMAP.Sequence`, a runner of asynchronous steps, and a few parts of the
  mail model:
  - the update windows of `messageUpdates` and `threadUpdates`;
  - the `isSortedOn…` and `isFilteredOn…` predicates;
  - `isFilteredJustOnMailbox`;
  - `splitDirection`.

Code that is pure is modelled as functions and lemmas. Code that changes
objects is modelled twice:
- **A datatype of its state.** Its member functions specify each operation.
  These are `ConnSpec.ConnState`, `Auth.AuthState`, `Sequences.SeqState` and
  `MailQueries.UpdateWindow`.
- **A class with the JavaScript object's fields.** Its methods follow the
  JavaScript, loops included, and are proved to implement those functions.
  These are `Connections.Connection`, `Auth.Authority`, `Sequences.Sequence`
  and `MailQueries.WindowFields`.

The properties are proved about the specification functions:
- the invariant every operation keeps;
- the tag correlation between calls and callbacks;
- what a request carries;
- the outcome of each failure status;
- the commit order;
- the back-off sequence;
- the codecs' round trips and injectivity;
- the query ids' agreement with filter equality;
- what `Sequence` runs.

Things outside the core become parameters of the model:
- **The run loop.** A deferred `send()` becomes the `sendRequested` flag. A
  callback handed to `O.RunLoop.queueFn` is appended to the `scheduled` log.
  The authority's `connection.send()` calls are appended to `sendRequests`.
- **Application functions** (custom handlers, `makeSetRequest` over
  `Object.zip`) are the parameter `Env` of the connection.
- **The store.** What the response glue tells the store is a list of
  `Glue.Event` values.

Behaviour of the code that the model keeps as written:
- **Commit order (`commitChanges`).** The types are sorted descending by
  precedence, and then the `while ( l-- )` loop visits them from the end. So
  types are committed in ascending effective precedence, and types of equal
  precedence in reverse key order. A reading of the precedence table as
  "highest first" would give the opposite order; the model follows the code
  (`CommitOrder.VisitingAscends`, `CommitOrder.VisitingTiesReversed`).
- **`cancel` in `Sequence`.** It sets `length` to 0 but leaves the queue in
  place (`Sequences.CancelKeepsOldSteps`).
- **An empty batch.** When `send()` finds no call to make, the callbacks that
  `makeRequest` already took from the queue are dropped
  (`ConnProps.EmptyRequestDropsCallbacks`).
- **The 400 and 413 diagnostic.** It reads the page-global `status`, not the
  event's status. The model writes the message `Bad request made: ` without
  that global's value, which is not modelled.
- **A 404 on a connection allowed to send.** `ioDidFail` starts endpoint
  discovery and asks `connectionWillSend`, which answers true for an
  authenticated connection that has not failed, so the connection is not
  queued as awaiting. `ioDidEnd` then sends the same batch again at once,
  while discovery is still running (`ConnProps.NotFoundResendsAtOnce`).

## Model

| member | source | states |
|---|---|---|
| DateJson.ToJSONReads | libs/JMAP.js:10-27 | every date whose fields fit the layout is written in 19 characters and reads back as itself |
| DateJson.ParseWrites | libs/JMAP.js:10-27 | every text in the `YYYY-MM-DDTHH:MM:SS` layout is what `toJSON` writes for the date it reads as |
| DateJson.ToJSONInjective | libs/JMAP.js:10-27 | two writable dates are written alike only when they are equal |
| DateJson.ToJSONFields | libs/JMAP.js:18-25 | a writable date is written as its six zero-padded fields joined by `-`, `-`, `T`, `:`, `:` |
| DateJson.YearPadded | libs/JMAP.js:18-20 | the year below 10000 is its numeral padded with zeros to four digits |
| DateJson.TwoPadded | libs/JMAP.js:21-25 | a field below 100 is its numeral padded with zeros to two digits |
| DateJson.JoinReads | libs/JMAP.js:17-26 | digit fields of the layout's widths, joined, read back as their values |
| DateJson.ParsedIsJoin | libs/JMAP.js:17-26 | a text that reads as a date is its six fields joined by the separators |
| Auth.InitialInv | libs/JMAP.js:52-165 | the authority's initial state satisfies the invariant (countdown iff timer armed, wait at least one second, no connection listed twice) |
| Auth.OperationsKeepInv | libs/JMAP.js:91-230 | every operation of the authority keeps the invariant |
| Auth.WillSendGate | libs/JMAP.js:167-177 | a connection may send iff authenticated and not failed; a refused one is queued once as awaiting exactly when unauthenticated or refetching endpoints; nothing else changes |
| Auth.FailureWhileUnauthenticated | libs/JMAP.js:186-193 | a failure while unauthenticated only queues the connection as awaiting authentication |
| Auth.LostAuthenticationQueuesAwaiting | libs/JMAP.js:152-177 | after authentication is lost, a connection is refused and queued as awaiting, not failed |
| Auth.RetryInStarts | libs/JMAP.js:195-219 | `retryIn` does nothing while counting down; otherwise it disconnects, arms the timer and leaves the chosen wait as the time to reconnect after the first tick |
| Auth.SuccessResetsBackoff | libs/JMAP.js:179-211 | after a success the authority is connected and the next wait is the suggestion or one second |
| Auth.Countdown | libs/JMAP.js:213-230 | each tick takes one second off; the tick reaching zero resends every failed connection and disarms the timer |
| Auth.BackoffSequence | libs/JMAP.js:186-230 | the k-th consecutive failure waits min(2^(k-1), 300) seconds, and each cycle ends disarmed with the connection resent once more |
| Auth.AuthenticateFlushesAwaiting | libs/JMAP.js:91-105 | `didAuthenticate` copies only recognised plain fields, authenticates iff the access token is truthy, and resends every awaiting connection in order |
| Auth.Authority.constructor | libs/JMAP.js:52-165 | the object starts in the initial state |
| Auth.Authority.ConnectionWillSend | libs/JMAP.js:167-177 | implements `WillSend`: the answer is authenticated and not failed |
| Auth.Authority.ConnectionSucceeded | libs/JMAP.js:179-184 | implements `Succeeded` |
| Auth.Authority.ConnectionFailed | libs/JMAP.js:186-193 | implements `Failed` |
| Auth.Authority.RetryIn | libs/JMAP.js:195-211 | implements `RetryIn`, the back-off choice and the first tick |
| Auth.Authority.TickBody | libs/JMAP.js:213-219 | implements `_tick` |
| Auth.Authority.Tick | libs/JMAP.js:207-219 | one firing of the periodic timer, when armed |
| Auth.Authority.RetryConnections | libs/JMAP.js:221-230 | implements `retryConnections`: timer cancelled, every failed connection resent in order |
| Auth.Authority.DidAuthenticate | libs/JMAP.js:91-105 | implements `didAuthenticate` |
| Auth.Authority.DidLoseAuthentication | libs/JMAP.js:152-154 | implements `didLoseAuthentication` |
| Auth.Authority.RefindEndpoints | libs/JMAP.js:107-112 | implements starting endpoint discovery unless running or unauthenticated |
| Auth.Authority.RefindEndpointsDidEnd | libs/JMAP.js:143-146 | the discovery request's cleanup clears the fetching flag |
| Protocol.ArgsOr | libs/JMAP.js:515 | `args \|\| {}`: falsy arguments become the empty object, truthy ones are kept |
| Protocol.TaggedAt | libs/JMAP.js:513-521 | the i-th call appended to a queue of length `start` is the i-th invocation tagged `start + i` |
| Protocol.TaggedAppend | libs/JMAP.js:513-521 | tagging two runs of calls one after the other is tagging their concatenation |
| Protocol.TaggedKeepsIndices | libs/JMAP.js:513-521 | appending tagged calls to a queue whose tags are indices keeps every tag equal to its index |
| Protocol.TagsCorrelate | libs/JMAP.js:612-628 | in a batch tagged by position the tags are distinct and `remoteCalls[+tag]` of call k is call k |
| Protocol.CallAt | libs/JMAP.js:612 | `remoteCalls[+id]` is the call at that index, or undefined |
| Protocol.Matching | libs/JMAP.js:630-632 | the responses kept are exactly those carrying the tag, in order |
| Protocol.MatchingAppend | libs/JMAP.js:630-632 | filtering a concatenation filters each part |
| Registry.Pick | libs/JMAP.js:1036-1041 | a connection's own table shadows the class's inherited one |
| Registry.ExtendsKeepsHandlers | libs/JMAP.js:1027-1044 | registering never removes a fetcher, refresher or query fetcher |
| Registry.RegisterIsScoped | libs/JMAP.js:1027-1044 | a registration changes only its own type and action, never another type, and never the class defaults |
| Registry.RegisterAllExtends | libs/JMAP.js:1027-1044 | `handle` with several registrations keeps every earlier handler available |
| Registry.LastRegistrationWins | libs/JMAP.js:1041 | the last registration for a type and action is the one found |
| Registry.OtherRegistrationsKeepFetcher | libs/JMAP.js:1027-1044 | registrations other than `fetch` leave the type's fetcher as it was |
| Requests.PendingRecordsAreRequested | libs/JMAP.js:684-713 | a record fetch or refresh whose handler is a method name becomes, among the pending work's calls, exactly the call `{ ids }` of that method, with the ids as `Object.keys` lists them (indices first, ascending) |
| Requests.PendingTypesAreRequested | libs/JMAP.js:672-703 | a whole-type fetch or refresh whose handler is a method name becomes the call with no arguments or with `{ sinceState }` |
| Requests.PendingQueriesAreRequested | libs/JMAP.js:663-670 | a pending query whose class has a query fetcher is handed to that fetcher with the query, and what it does is part of the request |
| Requests.PhaseKeysListed | libs/JMAP.js:663-713 | a key is visited by a loop exactly when it is a key of that loop's table |
| Requests.VisitIsRequested | libs/JMAP.js:663-713 | what the iteration for any key does is part of what `makeRequest` does for the pending work |
| Requests.CallsOfHas | libs/JMAP.js:513-521 | a `callMethod` a handler makes is among the calls it queues |
| Requests.NothingPending | libs/JMAP.js:651-713 | nothing pending, nothing added |
| Requests.ServedExtends | libs/JMAP.js:1027-1044 | registrations keep every pending entry served by a handler |
| Requests.CommitType | libs/JMAP.js:934-967 | a type is handled iff it has a committer, creator, updater or destroyer |
| Requests.HandledTypes | libs/JMAP.js:964-966 | the types deleted from the change set are exactly those handled |
| CommitOrder.Sorted | libs/JMAP.js:925-929 | sorting keeps the number of types |
| CommitOrder.SortedPermutes | libs/JMAP.js:925-929 | sorting only reorders: the same types, each once when the keys are distinct |
| CommitOrder.SortedIndicesPermutes | libs/JMAP.js:925-929 | the sorted positions are a permutation of the key positions |
| CommitOrder.SortedIndicesSorted | libs/JMAP.js:925-929 | the sorted positions follow the comparator: higher precedence first, ties by position |
| CommitOrder.VisitingAscends | libs/JMAP.js:925-933 | with a precedence table the loop visits types by non-decreasing effective precedence (`precedence[t] \|\| -1`) |
| CommitOrder.VisitingTiesReversed | libs/JMAP.js:925-933 | of two types with equal precedence, the one whose key came later is visited first |
| CommitOrder.VisitingUnsorted | libs/JMAP.js:918-933 | without a precedence table the keys are visited last to first |
| Ordered.Include | libs/JMAP.js:174 | `include` appends the element only when absent |
| Ordered.MergeFromEnd | libs/JMAP.js:822-824 | the ids are added to the set last first, each once |
| OwnKeys.EnumerationOrder | libs/JMAP.js:706 | `Object.keys` lists the array-index keys first in ascending order, then the others in insertion order |
| OwnKeys.EnumeratedPermutes | libs/JMAP.js:706 | enumeration lists every member exactly as often as the object holds it |
| OwnKeys.EnumeratedKeysListed | libs/JMAP.js:663-713 | `for ... in` visits every key of the object and no other |
| OwnKeys.EnumeratedDistinctKeys | libs/JMAP.js:663-713 | an object's keys, enumerated, have no repeats |
| OwnKeys.InsertionOrderWithoutIndices | libs/JMAP.js:5685 | an object with no array-index key enumerates in insertion order |
| OwnKeys.IndicesBeforeNames | libs/JMAP.js:706 | ids added as `b`, `10`, `a`, `9` are listed `9`, `10`, `b`, `a` |
| Ordered.WithoutMembers | libs/JMAP.js:964-966 | deleting keys keeps exactly the other entries in order |
| Connections.ChangeSet.constructor | libs/JMAP.js:917 | the change set holds the given entries |
| Connections.Connection.constructor | libs/JMAP.js:333-356 | a new connection has nothing queued, pending or in flight, and the class's handler tables |
| Connections.Connection.CallMethod | libs/JMAP.js:513-521 | implements `callMethod`: the call is queued tagged with the queue length, with its callback under the same tag, and a send is requested |
| Connections.Connection.AddCallback | libs/JMAP.js:523-526 | implements `addCallback`: an untagged callback is queued |
| Connections.Connection.ApplyEffect | libs/JMAP.js:513-526 | one call a handler makes back into the connection (`callMethod`, `addCallback` or `fetchRecords`) has the effect `Apply` gives it |
| Connections.Connection.ApplyEffects | libs/JMAP.js:513-526 | a handler's calls, in order, have the effect of `ApplyAll`, and leave the handler tables alone |
| Connections.Connection.Visit | libs/JMAP.js:663-713 | one iteration of a `makeRequest` loop: a named handler is one `callMethod`, a function handler does what it does, with the tables as they are at that moment |
| Connections.Connection.VisitKeys | libs/JMAP.js:663-713 | the iterations of a loop over the given keys, in order |
| Connections.Connection.RunLoop | libs/JMAP.js:663-713 | one `for ... in` loop of `makeRequest`, over its table's keys as they are when it starts |
| Connections.Connection.TakeQueues | libs/JMAP.js:715-727 | the queues are handed over and every table is emptied |
| Connections.Connection.MakeRequest | libs/JMAP.js:651-728 | implements `makeRequest` |
| Connections.Connection.Send | libs/JMAP.js:558-586 | implements the deferred body of `send` against the authority |
| Connections.Connection.Transmit | libs/JMAP.js:563-585 | a kept batch is posted again; otherwise a new non-empty batch is made and posted |
| Connections.Connection.IoDidSucceed | libs/JMAP.js:394-419 | implements `ioDidSucceed`: a non-array body is reported and read as no responses, the authority hears of the success, the batch is received and cleared |
| Connections.Connection.IoDidFail | libs/JMAP.js:429-483 | implements `ioDidFail`, status by status |
| Connections.Connection.IoDidEnd | libs/JMAP.js:493-499 | implements `ioDidEnd`: the request is cleared and a send requested |
| Connections.Connection.Receive | libs/JMAP.js:602-639 | implements `receive`: responses dispatched in order, then every callback scheduled |
| Connections.Connection.Deliver | libs/JMAP.js:607-618 | one response goes to its handler: what the handler reports is logged and every `fetchAllRecords` it asks for is recorded at once |
| Connections.Connection.HandlerEvents | libs/JMAP.js:609-616 | what the handler registered for the response reports, given the call at its tag |
| Connections.Connection.FetchAllOf | libs/JMAP.js:766-768 | `fetchAllRecords` of each type in turn |
| Connections.Connection.Fire | libs/JMAP.js:620-638 | the callbacks of the batch, each bound to its responses and call, in order |
| Connections.Connection.Discard | libs/JMAP.js:478-482 | the batch's callbacks run with no responses and it is cleared |
| Connections.Connection.Complete | libs/JMAP.js:415-418 | the batch in flight is received with its own callbacks and calls, then cleared |
| Connections.Connection.HasRequests | libs/JMAP.js:528-543 | returns `hasRequests()` as written |
| Connections.Connection.FetchRecords | libs/JMAP.js:806-835 | implements `fetchRecords` |
| Connections.Connection.RecordFetch | libs/JMAP.js:818-829 | the pending tables after recording a fetch or refresh |
| Connections.Connection.MergeIds | libs/JMAP.js:819-825 | the `while ( l-- )` loop adds the ids to the set last first |
| Connections.Connection.FetchRecord | libs/JMAP.js:747-749 | is `fetchRecords` of one id |
| Connections.Connection.FetchAllRecords | libs/JMAP.js:766-768 | is `fetchRecords` of the whole type, a refresh when a state is given |
| Connections.Connection.RefreshRecord | libs/JMAP.js:786-788 | is `fetchRecords` of one id, as a refresh |
| Connections.Connection.FetchQuery | libs/JMAP.js:986-999 | implements `fetchQuery` |
| Connections.Connection.Handle | libs/JMAP.js:1027-1044 | implements `handle` |
| Connections.Connection.CommitType | libs/JMAP.js:934-963 | one iteration of the commit loop does what `CommitType` says the type's handlers do, and reports if the type was handled |
| Connections.Connection.CommitAll | libs/JMAP.js:931-968 | the loop over the sorted types is `CommitTurns` of all of them |
| Connections.Connection.Turn | libs/JMAP.js:931-968 | one more iteration of the loop is one more turn |
| Connections.Connection.CommitChanges | libs/JMAP.js:917-973 | implements `commitChanges` |
| Connections.Connection.QueueCallback | libs/JMAP.js:969-971 | a given callback is queued untagged |
| Connections.Connection.Schedule | libs/JMAP.js:830-834 | the pending tables are replaced, the callback queued and a send requested |
| ConnProps.CallMethodCorrelates | libs/JMAP.js:513-521 | `callMethod` tags the call with its queue position; its callback carries the same tag, and the tag leads back to the call |
| ConnProps.AddCallbackKeepsValid | libs/JMAP.js:523-526 | `addCallback` keeps the invariant |
| ConnProps.FetchRecordsOutcome | libs/JMAP.js:806-835 | handled exactly when the type has the fetcher or refresher needed (a refresh falling back to a fetch); every id asked for is pending and nothing pending is lost; unhandled calls change nothing |
| ConnProps.FetchRecordsKeepsValid | libs/JMAP.js:806-835 | `fetchRecords` keeps the invariant |
| ConnProps.WithFetchServed | libs/JMAP.js:818-829 | recording work for a type that has the handler keeps every pending entry served |
| ConnProps.FetchQueryOutcome | libs/JMAP.js:986-999 | a query is recorded exactly when its class has a fetcher |
| ConnProps.HandleKeepsValid | libs/JMAP.js:1027-1044 | registering handlers keeps the invariant |
| ConnProps.MakeRequestHandsOver | libs/JMAP.js:651-728 | the batch starts with the calls and callbacks queued before, unchanged, followed by whatever the handlers of the pending work add (`callMethod`, `addCallback`, `fetchRecords` included); on a valid connection all are tagged by position; the connection then starts again with nothing queued or pending |
| ConnProps.MakeRequestFollowsPending | libs/JMAP.js:650-728 | while no handler records more work, `makeRequest` does what the pending work calls for, in loop order, then hands over both queues and empties every table |
| ConnProps.MakeRequestCalls | libs/JMAP.js:650-728 | the calls of such a request are those queued before, then the pending work's calls tagged from the queue's length |
| ConnProps.RequestedGoesOut | libs/JMAP.js:650-728 | any call the pending work makes goes out in the next request, tagged by its position |
| ConnProps.PendingRecordsGoOut | libs/JMAP.js:704-715 | a record fetch whose fetcher is a method name goes out as that method with the ids as `Object.keys` lists them |
| ConnProps.QueryCallbackJoinsBatch | libs/JMAP.js:5456-5458 | a callback a query fetcher adds with `addCallback` is among the callbacks of the same request |
| ConnProps.RefreshFetchesInSameBatch | libs/JMAP.js:5174-5176 | a refresher function that asks for the records by `fetchRecords` gets them fetched in the same request, after the calls queued before, with the same ids |
| ConnProps.RefreshSends | libs/JMAP.js:686-715 | that request is the calls queued before and then the fetcher's `{ ids }` call |
| ConnProps.MakeRequestIgnoresRequest | libs/JMAP.js:650-728 | the batch does not depend on whether a send was already requested |
| ConnProps.MakeRequestIdle | libs/JMAP.js:650-728 | with nothing pending, the batch is the queues as they were and both are emptied |
| ConnProps.ApplyAllKeeps | libs/JMAP.js:513-526 | what a handler does only adds to the queues, keeps the invariant, and leaves the pending tables alone unless it calls `fetchRecords` |
| ConnProps.ApplyAllQueue | libs/JMAP.js:513-521 | the methods a handler calls are queued in order, tagged from the queue's length |
| ConnProps.ApplyAllCallbacks | libs/JMAP.js:523-526 | a callback a handler adds is in the callback queue afterwards |
| ConnProps.SendKeepsValid | libs/JMAP.js:558-586 | `send` keeps both invariants |
| ConnProps.SendGate | libs/JMAP.js:558-586 | a request goes out exactly when none is out, the authority allows it, and there is a kept or a new non-empty batch; what goes out is what is kept in flight |
| ConnProps.RetrySendsSameBatch | libs/JMAP.js:563-571 | a batch kept after a failure goes out again with the same calls, and nothing queued since is added |
| ConnProps.EmptyRequestDropsCallbacks | libs/JMAP.js:566-569 | when a send finds no call to make, the callbacks taken with the empty batch are neither queued, nor in flight, nor scheduled |
| ConnProps.SuccessReceives | libs/JMAP.js:394-419 | a success dispatches the responses, schedules every callback of the batch, clears it, and tells the authority |
| ConnProps.SuccessKeepsValid | libs/JMAP.js:394-419 | `ioDidSucceed` keeps the invariant |
| ConnProps.ReceiveKeeps | libs/JMAP.js:602-639 | `receive` logs what every handler reports in response order, schedules every callback, changes neither queue nor the batch, and keeps the invariant |
| ConnProps.DispatchLogs | libs/JMAP.js:607-619 | the first loop logs the handlers' reports in response order |
| ConnProps.DispatchFetches | libs/JMAP.js:607-619 | every whole-type fetch a handler asks for during the loop is pending afterwards with a send requested; nothing pending is lost |
| ConnProps.RefetchesAreRecorded | libs/JMAP.js:1651-1653 | a `cannotCalculateChanges` handler's `fetchAllRecords` leaves the type pending for the next request |
| ConnProps.FetchAllFetches | libs/JMAP.js:766-768 | `fetchAllRecords` of types that have a fetcher leaves each pending and a send requested |
| ConnProps.SuccessFiresEachCallbackOnce | libs/JMAP.js:620-638 | after a success each callback is scheduled once, in order, a tagged one with exactly the responses with its tag and its call |
| ConnProps.NonJsonBodyIsNoResponses | libs/JMAP.js:401-411 | a body that is not an array is reported and treated as no responses |
| ConnProps.FailureDiscards | libs/JMAP.js:433-482 | 400, 413, 500, or any other failure without retrying: callbacks run with no responses and nothing is left in flight; the authority is not told |
| ConnProps.DiscardedGetNothing | libs/JMAP.js:478-482 | run with no responses, a callback gets nothing or an empty list |
| ConnProps.FailureKeeps | libs/JMAP.js:446-476 | 401, 404, 429, 503 and retried failures keep the batch. After a 401 the connection is awaiting authentication. After a 404 on an authenticated authority discovery starts, and the connection is awaiting only if it had failed before. Other kept failures list it as failed when authenticated, as awaiting otherwise |
| ConnProps.NotFoundResendsAtOnce | libs/JMAP.js:451-455 | a 404 on an authenticated connection that has not failed starts endpoint discovery, leaves the awaiting list alone, and the send `ioDidEnd` asks for posts the same batch again at once |
| ConnProps.FailureKeepsConnection | libs/JMAP.js:186-211 | after `connectionFailed` on an authenticated authority the connection is among the failed |
| ConnProps.EndAllowsNextRequest | libs/JMAP.js:493-499 | `ioDidEnd` allows the next request and asks for a send, keeping the batch |
| ConnProps.CallRoundTrip | libs/JMAP.js:513-639 | a call on an idle connection goes out alone tagged "0", and on success its callback is scheduled once with the responses tagged "0" and that call |
| ConnProps.CallFirstSends | libs/JMAP.js:513-586 | the call is posted alone, tagged "0" |
| ConnProps.CommitChangesHandlesExactly | libs/JMAP.js:917-973 | `commitChanges` removes exactly the handled types, keeps the rest in order, reports whether any was handled, and queues the callback only then |
| ConnProps.CommitChangesRest | libs/JMAP.js:964-968 | what is left of the change set is exactly its entries whose type has no handler, and something was handled exactly when some type of it has one |
| ConnProps.CommitChangesQueues | libs/JMAP.js:969-971 | `commitChanges` only appends to the queues, and a given callback goes last on the callback queue when a type was handled |
| ConnProps.CommitChangesByTurns | libs/JMAP.js:917-973 | the loop followed by the callback is `commitChanges`, and it leaves a valid state and a change set with distinct keys |
| ConnProps.NothingHandled | libs/JMAP.js:931-968 | when no type has a handler, the loop calls nothing |
| ConnProps.CommitVisitMembers | libs/JMAP.js:918-933 | the loop visits the types of the change set and no others |
| ConnProps.CommitChangesKeepsValid | libs/JMAP.js:917-973 | `commitChanges` keeps the invariant |
| ConnProps.CommitOrderFacts | libs/JMAP.js:918-933 | the loop visits every type of the change set once, from the end of the sorted keys |
| ConnProps.CommitStepReads | libs/JMAP.js:931-934 | every turn reads the change of its type as it was passed in |
| ConnProps.CommitTurnsFollow | libs/JMAP.js:931-968 | after k turns the loop has queued the calls of the last k types, last first, and deleted those handled |
| ConnProps.CommitTurnsComplete | libs/JMAP.js:917-973 | the whole loop followed by queuing the callback is `commitChanges` |
| ConnProps.CommitTurnsKeepValid | libs/JMAP.js:931-968 | the loop keeps the invariant |
| ConnProps.NamedCommittersCallInOrder | libs/JMAP.js:938-945 | with a named committer for every type, one call per type goes out in visiting order, each carrying its own change |
| ConnProps.HasRequestsMissesTypeFetch | libs/JMAP.js:528-543 | with only a whole-type fetch pending, `hasRequests()` is false, yet the next request calls the fetcher |
| ConnProps.NoRequestsNothingToSend | libs/JMAP.js:528-543 | counting every pending table, no requests means nothing in flight and nothing to call |
| Glue.DidFetchReports | libs/JMAP.js:1150-1161 | the fetched list is reported first when truthy, the ids not found last when truthy, all for the type |
| Glue.FetchReportsWhole | libs/JMAP.js:1644-1646 | a fetch handler reports a whole-type fetch exactly when the request was its type's `get` method without `ids` |
| Glue.Refetches | libs/JMAP.js:1651-1653 | the types to refetch are exactly those of the `fetchAllRecords` requests among a handler's reports |
| Glue.DidFetchUpdatesOf | libs/JMAP.js:1163-1172 | one update is reported; the changed ids are passed only when the request did not fetch records |
| Glue.CreatedEvents | libs/JMAP.js:1179-1187 | only create outcomes are reported for created records |
| Glue.UpdatedEvents | libs/JMAP.js:1188-1197 | only update outcomes, for the type |
| Glue.DestroyedEvents | libs/JMAP.js:1198-1207 | only destroy outcomes, for the type |
| Glue.DidCommit | libs/JMAP.js:1174-1212 | throws exactly when `updated` or `destroyed` is a non-empty string; creates come first; on no throw a truthy new state is reported last |
| Glue.ErrorTarget | libs/JMAP.js:1222-1229 | `error_<reqName>_<type>` when registered, otherwise `error_<type>` |
| Glue.ErrorRedirectChoice | libs/JMAP.js:1222-1232 | the redirect prefers the method-specific handler, falls back to the type's, and does nothing with neither |
| Glue.DispatchUsesOriginatingCall | libs/JMAP.js:607-619 | a registered handler receives the call at its response's tag; unregistered responses do nothing |
| Glue.FireOne | libs/JMAP.js:624-636 | the scheduled callback is the queued one, with responses exactly when tagged |
| Glue.CallbacksFireOnce | libs/JMAP.js:620-638 | every queued callback is scheduled once, in order, a tagged one with exactly its responses and its call, an untagged one with nothing |
| Sequences.SeqState.Then | libs/JMAP.js:1469-1473 | queuing a step keeps the invariant (no more steps counted than queued) |
| Sequences.SeqState.Go | libs/JMAP.js:1475-1488 | `go` keeps the invariant |
| Sequences.SeqState.Cancel | libs/JMAP.js:1490-1499 | `cancel` keeps the invariant |
| Sequences.ThenAllQueues | libs/JMAP.js:1469-1473 | queuing steps appends them and counts them, and changes nothing else |
| Sequences.RunsAt | libs/JMAP.js:1475-1488 | the k-th step run gets the k-th data |
| Sequences.GoAllRuns | libs/JMAP.js:1475-1488 | going n times runs the next n steps in order, each with its data, and calls `afterwards( length, length )` just after the last starts |
| Sequences.RunToTheEnd | libs/JMAP.js:1460-1488 | a new sequence of steps gone through once per step runs each once in order and ends finished with one `afterwards( n, n )` |
| Sequences.FinishedIsInert | libs/JMAP.js:1475-1499 | once finished or cancelled, `go` and `cancel` do nothing |
| Sequences.CancelStops | libs/JMAP.js:1490-1499 | cancelling reports how far the run got, fires `cancel`, and no step runs after |
| Sequences.GoAllInert | libs/JMAP.js:1475-1488 | any number of `go` calls on a finished sequence do nothing |
| Sequences.CancelKeepsOldSteps | libs/JMAP.js:1490-1499 | a step queued after cancelling an unstarted run makes `go` run the step queued first |
| Sequences.Sequence.constructor | libs/JMAP.js:1460-1467 | a new sequence is empty |
| Sequences.Sequence.Then | libs/JMAP.js:1469-1473 | implements `then` |
| Sequences.Sequence.Go | libs/JMAP.js:1475-1488 | implements `go`, reading index and length once |
| Sequences.Sequence.Cancel | libs/JMAP.js:1490-1499 | implements `cancel` |
| Durations.ToJSON | libs/JMAP.js:1687-1726 | the method's output is the duration's text; zero is `P0D`; for a non-negative duration `fromJSON` reads back its whole seconds |
| Durations.TimePart | libs/JMAP.js:1700-1723 | the falling-through `switch` writes hours, minutes and seconds as `TimeText` specifies |
| Durations.TextRoundTrip | libs/JMAP.js:1687-1742 | `fromJSON( toJSON( d ) )` is d rounded down to whole seconds for every non-negative d |
| Durations.TimeTextReads | libs/JMAP.js:1700-1739 | the time part reads back as the units it was written from |
| Durations.UnitsSum | libs/JMAP.js:1702-1722 | the units written add up to the whole seconds of the remainder |
| Durations.WholeSeconds | libs/JMAP.js:1693-1722 | the day count and the remainder add up to the whole seconds of the duration |
| Durations.PartsRead | libs/JMAP.js:1733-1739 | a day part and a time part read back as the days and the units |
| Durations.DaysRead | libs/JMAP.js:1676 | after the day group the time group is optional |
| Durations.GroupReads | libs/JMAP.js:1676 | a numeral and a unit letter are read by that unit's group and skipped by the others |
| Durations.GroupSkips | libs/JMAP.js:1676 | text not starting with a digit is skipped by every group |
| Durations.HoursReads | libs/JMAP.js:1676 | hours, minutes and seconds written in turn read back as themselves |
| Durations.MinutesReads | libs/JMAP.js:1676 | minutes and seconds read back with no hours |
| Durations.SecondsReads | libs/JMAP.js:1676 | seconds alone read back with no hours and no minutes |
| Durations.FromMatch | libs/JMAP.js:1732-1742 | the value of a matching text is the sum of its units in milliseconds |
| Durations.UnmatchedIsZero | libs/JMAP.js:1732-1742 | the empty text and texts the pattern rejects are worth zero |
| AmbiguousDates.HasValueNew | libs/JMAP.js:4073-4086 | a date has a value exactly when some part given to `init` was truthy |
| AmbiguousDates.ToJSONReads | libs/JMAP.js:4079-4125 | a date whose parts fit their widths is written in ten characters and reads back as itself |
| AmbiguousDates.FromJSONWrites | libs/JMAP.js:4079-4125 | every text `fromJSON` accepts is what `toJSON` writes for the date it reads as |
| AmbiguousDates.PartsRead | libs/JMAP.js:4121-4125 | digit runs of widths 4, 2, 2 joined by `-` read back as their values |
| AmbiguousDates.FromNothing | libs/JMAP.js:4121-4125 | no text, or the empty text, is no date |
| AmbiguousDates.UnknownDate | libs/JMAP.js:4079-4125 | the unknown date is written `0000-00-00`, which reads back as a date without value |
| AmbiguousDates.LongYearUnread | libs/JMAP.js:4079-4125 | a year of five digits or more is written in full and not read back |
| JsonPointers.EscapeTokenEach | libs/JMAP.js:3153 | the two `replace` passes escape each character on its own (`~` as `~0`, `/` as `~1`) |
| JsonPointers.EscapeHasNoSlash | libs/JMAP.js:3153 | an escaped key holds no `/` |
| JsonPointers.UnescapeEscape | libs/JMAP.js:3153 | every escaped key reads back, by section 4 of RFC 6901, as the key |
| JsonPointers.EscapeTokenInjective | libs/JMAP.js:3153 | no two keys share an escaped segment |
| JsonPointers.OtherOrderFails | libs/JMAP.js:3153 | replacing `/` before `~` would write `/` as `~01`, which reads back as `~1` |
| JsonPointers.ChildPathExtends | libs/JMAP.js:3147-3169 | each recursive call extends the path by one escaped key |
| JsonPointers.ParsePathOf | libs/JMAP.js:3147-3169 | a path built by descending through keys reads back as a JSON Pointer to those keys |
| JsonPointers.PathOfInjective | libs/JMAP.js:3147-3169 | different key sequences give different paths |
| JsonPointers.EscapedToken | libs/JMAP.js:3153 | an escaped key is a valid reference token without `/` that reads back as the key |
| KeySort.SortByKeySorted | libs/JMAP.js:5277-5278 | sorting keys with none repeated gives strictly increasing keys |
| KeySort.SortByKeyOrderFree | libs/JMAP.js:5277-5278 | the sorted keys do not depend on the order members were added in |
| QueryIds.OrderFree | libs/JMAP.js:5270-5282 | an object is written alike whatever order its members were added in |
| QueryIds.KeysUnescapedCollide | libs/JMAP.js:5279-5281 | as written, the filters `{ 'a":1,"b': 2 }` and `{ a: 1, b: 2 }` are written alike |
| UniqueIds.StringifyQuotedInjective | libs/JMAP.js:5270-5282 | with keys quoted, a canonical value is the only canonical value with its text |
| UniqueIds.NormalizeText | libs/JMAP.js:5277-5281 | sorting every object's members does not change the text |
| UniqueIds.SameTextSameFilter | libs/JMAP.js:5270-5282 | with keys quoted, two well-formed filters are written alike exactly when they hold the same members at every level |
| UniqueIds.GetIdIdentifies | libs/JMAP.js:5284-5287 | with keys quoted, two queries get the same id exactly when their filters are both absent or equal up to member order, and they agree on collapsing threads |
| UniqueIds.FilterIdsApart | libs/JMAP.js:5284-5287 | the two colliding filters get different ids once keys are quoted |
| MailQueries.IsSortedOn | libs/JMAP.js:5648-5669 | the loop answers true exactly when some sort field contains the word |
| MailQueries.FilteredOnMentions | libs/JMAP.js:5656-5681 | on an evaluable filter tree the test never throws and holds exactly when some leaf has the property |
| MailQueries.FilteredOnSound | libs/JMAP.js:5656-5681 | whatever the filter, a yes answer means some leaf has the property |
| MailQueries.FirstHoldsSkipsThrow | libs/JMAP.js:5657-5658 | `some` stops at the first condition that holds, so a later throwing condition is not reached |
| MailQueries.IsFilteredJustOnMailbox | libs/JMAP.js:5682-5694 | the loop answers as `JustOnMailbox`: true exactly for an object whose only key is `inMailboxes` holding one mailbox; a throw when the first key `for ... in` lists is `inMailboxes` holding `null` |
| MailQueries.IndexKeyBeforeMailboxes | libs/JMAP.js:5685-5690 | `{ inMailboxes: null, "0": 1 }` lists `"0"` first, so the test answers false instead of throwing |
| MailQueries.JustOnMailboxFirstMember | libs/JMAP.js:5685-5690 | a filter listing `inMailboxes` first has it as its first member |
| MailQueries.OnlyObjectsJustOnMailbox | libs/JMAP.js:5682-5694 | an array or a string is never filtered just on a mailbox: its keys are indices |
| MailQueries.IndexOf | libs/JMAP.js:5783 | -1 exactly when there is no space, otherwise the first space |
| MailQueries.SplitDirectionAsWritten | libs/JMAP.js:5781-5792 | as written, one pair per field |
| MailQueries.SplitDirection | libs/JMAP.js:5781-5792 | corrected, one pair per field |
| MailQueries.SplitFieldText | libs/JMAP.js:5781-5792 | corrected, a field `prop asc` or `prop desc` splits into its property (with `Thread` for an `is…` property when collapsing) and 1 or -1 |
| MailQueries.SplitAgrees | libs/JMAP.js:5783-5785 | the correction agrees with the code whenever the space is not the first character |
| MailQueries.SplitWithoutSpaceDropsLast | libs/JMAP.js:5783-5785 | as written, the field `date` splits into `dat`, descending |
| MailQueries.StepKeepsReachable | libs/JMAP.js:4967-4988 | every step keeps the window one of the three, records are fetched in the first window only, no more updates resets, and more is fetched iff more updates exist below the last window |
| MailQueries.EscalationGivesUp | libs/JMAP.js:4967-4988 | with more updates each time the handler asks for 50, 100 and 150 messages (30, 100 and 120 threads), then gives up and resets |
| MailQueries.Escalate | libs/JMAP.js:5194-5215 | one trace entry per answer |
| MailQueries.WindowFields.constructor | libs/JMAP.js:4911-4912 | the windows start at the first, with records (for threads likewise at 5164-5165) |
| MailQueries.WindowFields.DidFetchUpdates | libs/JMAP.js:4967-4988 | implements the window update of `messageUpdates` and `threadUpdates` |

## Left out

- HTTP, timers and the run loop: the request, the periodic timer and the deferred `send`. They are modelled as the flags and logs described above. Request headers, URLs and timeouts are not modelled.
- Custom handler functions run as the parameter `Env.run`, which gives the calls the function makes back into the connection, in order: `callMethod`, `addCallback` and `fetchRecords` (`Requests.Effect`). Anything else such a function does is not modelled: `fetchQuery`, `handle`, and its calls into the store or into query objects, such as the MessageList fetcher's reading of the query's state. `makeSetRequest` is the parameter `Env.setRequest`, because it relies on `Object.zip` and `Object.filter`, which are not part of this model.
- `makeRequest`'s loops visit the keys their table has when the loop starts. A key a handler adds to the table a loop is walking is not visited by that loop; JavaScript leaves it unspecified whether `for ... in` visits such a key. The values are read as they are at each iteration, as the source does.
- The `CalendarEvent` fetch handler passes `this.replaceEvents` as `isAll`, a flag that other code sets. It is modelled as a handler that never passes `isAll`, and the flag is not modelled.
- `contactUpdates` and the other `didFetchUpdates` handlers that call `store.fetchAll` when `hasMoreUpdates` is set are modelled as `OnUpdates`; the store call is not modelled.
- ConnSpec.ConnState.Receive, Glue.DispatchOne, Connections.Connection.Receive: every element of the response array is taken to be a triple `[name, result, tag]` with string name and tag (`Protocol.Response`). In the source, an element that is `null` makes `response[0]` throw out of `receive`, which is outside the `try` (libs/JMAP.js:606-607). The earlier handlers have then run and `connectionSucceeded` has been called, but no callback is queued and the batch is not cleared. A tag that is a number still finds its call through `remoteCalls[+id]` but never matches `call[2] === id`, so its callback gets no responses. An element of another shape is read by index as JavaScript reads it. None of these cases is modelled.
- Protocol.TagIndex: only tags made of digits are read as indices. JavaScript's `+tag` also reads tags like " 1", "1e0" and "0x1". The tags `callMethod` writes are plain numerals, so the difference shows only for a response whose tag the server did not echo.
- Json.Length: an object's `length` is read as undefined, while JavaScript reads a member named `length`.
- Auth.AuthenticateFlushesAwaiting: a payload key that names one of the authority's state fields (`isDisconnected`, `timeToReconnect`, `_timeToWait`, `_isFetchingEndPoints`, `_failedConnections`, `_awaitingAuthentication`) is ignored. The source copies every non-function property of `this`, so such a key would overwrite that field, and a payload replacing `_awaitingAuthentication` would change the list that is then resent. Only the nine settings are merged.
- Auth.Authority.DidAuthenticate: implements the same merge, of the nine settings only, for the same reason.
- JavaScript numbers are modelled as integers. Non-integer values, NaN and the infinities are not modelled.
- Strings are sequences of characters compared by code point, while JavaScript compares UTF-16 code units. The two orders agree outside the supplementary planes.
- The `"%'04n"` format of `O`'s `String#format` is modelled as zero padding on the left.
- Date.toJSON: negative years are written as `'' + year` gives them, but not read back; `DateJson.Writable` excludes them.
- `applyPatch`, and any round trip through a patch, are not modelled. Of `makePatches`, only the paths it builds are: the walk over `original` and `current` and `O.isEqual` are not.
- `Sequence.progress`, `AmbiguousDate.prettyPrint` and `AmbiguousDate.yearsAgo` are not modelled: they depend on localisation or on the clock. `Duration.isEqual` and `valueOf` only compare or return the number and are not modelled.
- `isTrue` and the comparators of the mail model are not modelled; they have no logic to prove.
- The store's side of the response glue (`sourceDidFetchRecords` and the like) is recorded as events rather than modelled. So are `recalculateAllFetchedWindows` and `store.fetchAll` in `messageUpdates` and `threadUpdates`. The `error_get<Type>Updates_cannotCalculateChanges` handlers of the record types are `RefetchAll`: they report the refetch and record `fetchAllRecords` of the type while `receive` runs. Those of the mail windows are recorded as the `GiveUp` action.
- A `Sequence` step that calls its `go` synchronously, re-entering `go` before `afterwards` runs, is not modelled. A step is an identity, and each `go` is one call of `GoAll`.
- Requests.CommitType: a change missing its `create`, `update` or `destroy` part passes `undefined` parts to the handlers. In the source, reading `storeKeys` of a missing part throws.
- CommitOrder.Sorted: the sort is modelled as stable, ties kept in key order, as current engines sort. An engine whose `Array#sort` is unstable may order ties otherwise.
- Auth: of `refindEndpoints`' request only its start and `cleanup` are modelled. Its success handler is `didAuthenticate` and its 403 handler is `didLoseAuthentication`; both are modelled on their own. The delayed retry on 503 is not modelled.
- The record tables of the connection are modelled by `Registry`, with the precedence table as an optional map.

## Findings

| source | as written | input that shows it | evidently intended | confidence | as-written member | corrected member |
|---|---|---|---|---|---|---|
| libs/JMAP.js:5279-5281 | `stringifySorted` writes each key between quotes without escaping it | the filters `{ 'a":1,"b': 2 }` and `{ a: 1, b: 2 }` both give `{"a":1,"b":2}`, so two different queries share one id | keys quoted like every other string, so that ids are equal exactly when filters are | not executed | QueryIds.KeysUnescapedCollide | UniqueIds.GetIdIdentifies |
| libs/JMAP.js:5783-5785 | `space ?` is true for `-1`, so a field without a space is cut by `slice( 0, -1 )` | the sort field `date` becomes the property `dat`, descending | a field without a space is the whole property, descending | not executed | MailQueries.SplitWithoutSpaceDropsLast | MailQueries.SplitFieldText |
| libs/JMAP.js:528-543 | `hasRequests()` consults `_queriesToFetch`, `_recordsToFetch` and `_recordsToRefresh` but not `_typesToFetch` or `_typesToRefresh` | after `fetchAllRecords( Mailbox )` with a named fetcher, `hasRequests()` is false, although the next request calls `getMailboxes` | every pending table counted | not executed | ConnProps.HasRequestsMissesTypeFetch | ConnProps.NoRequestsNothingToSend |
