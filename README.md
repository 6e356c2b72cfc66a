# beech-tree Channel Access core, in Dafny

beech-tree drives EPICS Channel Access reads and writes from a
BehaviorTree.CPP executor. The bridge is in the poll-driven action nodes
`CAGetNode<T>` and `CAPutNode<T>`. Each one:
- starts an asynchronous get or put on `onStart`;
- answers "running / success / failure" on every `onRunning` tick without blocking;
- takes results and connection changes through callbacks.

The nodes share per-name connection handles (`CAPV`) through a registry of
weak references (`PVManager`). A context manager (`CAContextManager`)
creates and attaches the client library's context.

This project models that core as Dafny classes whose methods change their
fields as the C++ does:
- `PVManager` holds `registry` (name to handle) and `alive`, the handles that still have a strong owner elsewhere. An entry whose handle is not alive is an expired weak reference, and "the last owner let go" is `ReleaseLastOwner`.
- `CAPV` holds the channel flag, the connection state, the cached `PVData`, the listener list, the native type and element count, and a ghost log of library calls.
- `CAGetNode` and `CAPutNode` hold the flags `requested_`, `done_`, `cancelled_` and `connected_`, the inputs, the deadline and the lazily acquired handle. The get node's promise is an option `slot`; the put node keeps a ghost log `puts` of the values handed to `PutCB`.
- `CAContextManager` holds `initialized_`, `ctx_` and a ghost log of context calls.

Every node method is proved equal to a pure step function over a
snapshot of the node's fields. The other properties are lemmas about those
functions. Two function types carry the poll proofs:

| function | what it is |
|---|---|
| `StartRequest` | the handle-facing half of `onStart` |
| `Poll` | `onRunning` |

A run of events is an arbitrary interleaving of polls, results, connection
changes, halts and (for the get node) new cached values stored in the
shared handle, between two starts. `Replay` folds such a run, stopping
at a tick that throws. The lemmas about `Replay` state the once-only issue
of a get or put, the finality of a delivered value, and the cancellation
guard.

The properties of `Replay` carry over to the deployed nodes by a step-wise
correspondence. Every node method that handles an event has a postcondition
tying the node's new fields to that event's clause of `React`, the
one-event step `Replay` folds:

| event | node method |
|---|---|
| poll | `OnRunning` |
| result callback | `HandleGetResult` / `HandlePutResult` |
| connection change | `HandleConnection` |
| halt | `OnHalted` |
| new cached value (get node) | `CAPV.CacheValue` |

`OnStart` likewise ties the node to `BeginStart` and `StartRequest`.
Because each call's postcondition is that clause, a sequence of calls
between two starts leaves the node's fields in the state `Replay` computes
for the matching events. The get node's poll reads the handle, but only
its cached value (`ReplayReadsOnlyCache`), so the connection handler's
changes to the handle and other nodes' calls on it do not affect that
state; the cached value itself is threaded by `CacheChanged`. The
composition itself is this argument, not a separate lemma.

Foreign calls are parameters:
- every Channel Access call (`ca_create_channel`, `ca_array_get_callback`, `ca_field_type`, `ca_context_create`, `ca_current_context`, `ca_attach_context`) is a status or value argument;
- `PutCB`, which has no body in the repository, is a `putAccepted` flag;
- the steady clock is an integer `now` in milliseconds;
- the input ports are `Option` arguments;
- a thrown exception is a `Fatal` tick, or an `Err`/`Fail` outcome.

Constants: ECA_NORMAL is 1 and CA_OP_CONN_UP is 6. The DBR_TIME_* tags
are 14 to 20, as the EPICS `db_access.h` header numbers them. The
walkthroughs (`NodeScenarios`) use DBF_LONG = 5 and CA_OP_CONN_DOWN = 7.

Three behaviours of the code worth knowing:
- `ConnHandler` keeps the cached value when a channel disconnects.
- `ConnHandler` calls the listeners while it still holds the handle's lock.
- The get node's input port that selects the cached-value shortcut is named `use_monitor`.

Files:
- `wrappers.dfy`: Option, Result and Outcome.
- `pv_types.dfy`: types.h and the errors.
- `pv_decode.dfy`: `DecodePVScalar`.
- `pv_conversion.dfy`: `extract_as`, `GetAs` and `GetHandlerAs`.
- `ca_pv.dfy`: the `CAPV` class.
- `pv_manager.dfy`: `PVManager` and its pure registry functions.
- `ca_context_manager.dfy`: `CAContextManager`.
- `node_status.dfy`: the statuses and `Tick`.
- `caget_node.dfy` and `caput_node.dfy`: the two nodes.
- `registry_scenarios.dfy`: the registry's unit tests as verified client code.
- `node_scenarios.dfy`: node walkthroughs as verified client code.

## Model

| member | source | states |
|---|---|---|
| PVRegistry.LiveEntry | src/epics/ca/ca_pv_manager.cpp:9-16 | the reference lookup (find, then lock) that `PVRegistry.PVManager.Get` and the sweep lemmas are proved against: a handle exactly when the name has an entry whose handle still has an owner, and then that entry's handle |
| PVRegistry.Sweep | src/epics/ca/ca_pv_manager.cpp:43-55 | a sweep keeps exactly the names that are not expired, each with its old handle |
| PVRegistry.SweepCount | src/epics/ca/ca_pv_manager.cpp:38-55 | the kept and the erased entries add up to the registry's size, so the size counts expired entries until a sweep |
| PVRegistry.SweepKeepsLiveEntries | src/epics/ca/ca_pv_manager.cpp:43-55 | a sweep answers every lookup as before, leaves nothing expired, and a second sweep changes nothing |
| PVRegistry.RemovalKeepsInjective | src/epics/ca/ca_pv_manager.cpp:25-28 | erasing entries never makes two names share a handle |
| PVRegistry.PVManager.constructor | include/epics/ca/ca_pv_manager.h:15-16 | a new manager has an empty registry |
| PVRegistry.PVManager.Get | src/epics/ca/ca_pv_manager.cpp:5-23 | a live entry's handle is returned with nothing changed; otherwise a fresh handle in its initial state is filed under the name (replacing an expired entry) and every other entry is untouched |
| PVRegistry.PVManager.RegistrySize | src/epics/ca/ca_pv_manager.cpp:38-41 | counts every entry, expired or not: what a sweep would keep plus what it would erase |
| PVRegistry.PVManager.Remove | src/epics/ca/ca_pv_manager.cpp:25-28 | the name's entry is erased whether or not its handle is alive; the owners' set is unchanged |
| PVRegistry.PVManager.Shutdown | src/epics/ca/ca_pv_manager.cpp:30-36 | the registry is empty afterwards and handles owned elsewhere stay alive |
| PVRegistry.PVManager.CollectGarbage | src/epics/ca/ca_pv_manager.cpp:43-55 | the loop leaves exactly the swept registry and returns the number of expired entries |
| RegistryScenarios.SameInstanceWhileAlive | tests/epics/gtest_ca_pv_manager.cpp:18-24 | two lookups of a live name return one handle; size 1 |
| RegistryScenarios.RecreatesAfterLastExternalReleased | tests/epics/gtest_ca_pv_manager.cpp:26-40 | while the handle is held the size is 1, and it stays 1 after the last owner lets go, because the expired entry is counted until a sweep; the sweep erases 1 entry, leaving size 0, and the next lookup creates a different handle, size 1 |
| RegistryScenarios.CollectGarbageCountsExpiredOnly | tests/epics/gtest_ca_pv_manager.cpp:42-53 | with one live and one expired entry the sweep erases 1 and keeps the live handle; size 1 |
| RegistryScenarios.RemoveErasesRegistryEvenIfAlive | tests/epics/gtest_ca_pv_manager.cpp:55-69 | the size after the first lookup is 1, the size after `Remove` is 0, the removed handle is still owned, and the next lookup returns a different handle |
| RegistryScenarios.ShutdownClearsRegistry | tests/epics/gtest_ca_pv_manager.cpp:71-80 | the size after `Shutdown` is 0 and the held handle is still owned |
| RegistryScenarios.DifferentNamesAreDifferentInstances | tests/epics/gtest_ca_pv_manager.cpp:102-108 | two names give two handles and two entries |
| PVConversion.ExtractAs | include/epics/ca/ca_pv.h:104-141 | succeeds exactly on a scalar whose kind converts to `T` (text only to text, every number to every number); the exact kind comes back unchanged, the result has kind `T`, anything else is "unsupported DBR type" |
| PVConversion.CastScalar | include/epics/ca/ca_pv.h:116-128 | the numeric cast yields a value of the target kind, and the identity on the same kind |
| PVConversion.TruncToZero | include/epics/ca/ca_pv.h:123 | floating-to-integer conversion rounds toward zero |
| PVConversion.Convert | include/epics/ca/ca_pv.h:34-43 | `GetAs<PVData>` returns the cached data unconverted; any other `T` succeeds exactly when `extract_as` does, and then the sample is the value `extract_as` returns |
| PVConversion.GetHandlerAs | include/epics/ca/ca_pv.h:82-102 | null context or self: no call; non-normal status: throws without calling back; otherwise one call exactly when the tag decodes and converts to `T`; the sample is the decoded data for `T = PVData` and `extract_as` of the decoded data otherwise |
| PVConversion.HandlerAgreesWithGetAs | include/epics/ca/ca_pv.h:34-102 | a successful get hands the callback exactly what `GetAs<T>` returns for the decoded data, and raises the error `GetAs` reports when it cannot convert |
| PVConversion.LongDelivered | include/epics/ca/ca_pv.h:82-102 | a `DBR_TIME_LONG` buffer reaches an int32 callback as its `long` view unchanged, and a double callback as the same number |
| PVConversion.ExtractOwnKind | include/epics/ca/ca_pv.h:107-110 | reading a stored scalar as its own kind returns it unchanged, whatever the metadata |
| PVConversion.WideningRoundTrips | include/epics/ca/ca_pv.h:116-128 | int32 through double and back, and an enum index through int32 and back, are unchanged |
| PVConversion.NarrowingToEnum | include/epics/ca/ca_pv.h:123 | an int32 cast to an enum index differs from it by a multiple of 2^16: values in range pass unchanged and a small negative value wraps to the top of the range |
| PVConversion.FloatToEnumOutOfRange | include/epics/ca/ca_pv.h:116-128 | out of the enum range, a floating value is truncated to int32 and reduced modulo 2^16: -1.0 gives 65535, 70000.0 gives 4464, and a value beyond int32 gives 0 |
| PVConversion.DefaultDataReads | include/epics/types.h:12-39 | a default `PVData` reads as 0 of every numeric kind and throws when read as text |
| PVDecode.CString | src/epics/ca/ca_pv.cpp:53-56 | the text is the buffer's prefix up to the first NUL |
| PVDecode.DecodePVScalar | src/epics/ca/ca_pv.cpp:50-88 | succeeds exactly on the six TIME tags, with the kind the tag selects (string, double, float, int32 for LONG and INT, uint16 for ENUM); metadata and count keep their defaults; any other tag throws |
| PVDecode.DecodeReadsSelectedView | src/epics/ca/ca_pv.cpp:52-86 | the decoded value is the one in the struct view the tag selects; DBR_TIME_CHAR throws |
| PVDecode.DecodeDropsMetadata | src/epics/ca/ca_pv.cpp:50-51 | the buffer's status, severity and stamp do not influence the result |
| CaPV.Notifications | src/epics/ca/ca_pv.cpp:43-47 | every call goes to a registered listener with the new state, and there are at most as many calls as listeners |
| CaPV.NotificationsConcat | src/epics/ca/ca_pv.cpp:43-47 | notifying a concatenated list notifies the first part and then the second |
| CaPV.NotificationsAppend | src/epics/ca/ca_pv.cpp:10-13 | a listener appended by `AddConnCB` is notified last |
| CaPV.NotificationsReachListeners | src/epics/ca/ca_pv.cpp:43-47 | a listener is notified exactly when it is registered |
| CaPV.CAPV.constructor | include/epics/ca/ca_pv.h:147-159 | a new handle has no channel, is disconnected, caches `PVData{}`, has no listeners, native type 0 and element count 0 |
| CaPV.CAPV.IsConnected | src/epics/ca/ca_pv.cpp:26-29 | reports the connection flag the connection handler set last (`ConnHandler` pins it to `op == CA_OP_CONN_UP`) |
| CaPV.CAPV.GetAs | include/epics/ca/ca_pv.h:34-43 | on the handle's cached value: `PVData` as it is; any other `T` succeeds exactly when `extract_as` does and yields its value; the only error is "unsupported DBR type" |
| CaPV.CAPV.AddConnCB | src/epics/ca/ca_pv.cpp:10-13 | the listener is appended at the end |
| CaPV.CAPV.Connect | src/epics/ca/ca_pv.cpp:15-22 | no call once a channel exists; otherwise one create call, and it throws exactly when the status is not ECA_NORMAL |
| CaPV.CAPV.GetCBAs | include/epics/ca/ca_pv.h:45-67 | the get is always requested at the native type; true and a flush exactly on ECA_NORMAL |
| CaPV.CAPV.ConnHandler | src/epics/ca/ca_pv.cpp:31-48 | a handler with no user pointer does nothing; otherwise it is connected exactly on CA_OP_CONN_UP, native type and count are captured only then, the cached value is kept, and every non-empty listener of the list is called once, in order, with the new state |
| CaContext.CAContextManager.constructor | include/epics/ca/ca_context_manager.h:10-19 | a new manager is uninitialised and holds no context |
| CaContext.CAContextManager.Init | src/epics/ca/ca_context_manager.cpp:8-25 | idempotent once initialised; a failing create throws and stays uninitialised; a null current context is destroyed, throws and stays uninitialised; else the context is stored and the manager initialised |
| CaContext.CAContextManager.EnsureAttached | src/epics/ca/ca_context_manager.cpp:27-44 | initialises first when needed (its failure, create or null context, propagates); no attach when the caller already has the stored context; otherwise attaches, throwing on a non-normal status; the outcome and call sequence are `AttachResult` and `AttachCalls` |
| CaContext.CAContextManager.Shutdown | src/epics/ca/ca_context_manager.cpp:46-53 | no-op when uninitialised; otherwise destroys the context, nulls it and becomes uninitialised, so the next `Init` creates again |
| CaGetNode.ReplayKeepsIssueCount | include/actions/caget_node.h:85-140 | over any run of events the number of gets issued exceeds the count matched by the outstanding request by at most one |
| CaGetNode.PollReadsOnlyCache | include/actions/caget_node.h:85-122 | a poll on two handles caching the same value yields the same node and tick |
| CaGetNode.ReplayReadsOnlyCache | include/actions/caget_node.h:85-142 | over any run of events the node's fields depend on the handle only through its cached value |
| CaGetNode.MonitorSeesStoredValue | include/actions/caget_node.h:86-90 | connected in monitor mode, a poll after the environment stores an int32 outputs that value, whatever was cached before |
| CaGetNode.ReactKeepsIssueCount | include/actions/caget_node.h:85-142 | a single event keeps the issue count matched to the outstanding request, or throws after at most one more get |
| CaGetNode.GetIssuedAtMostOncePerStart | include/actions/caget_node.h:36-140 | from a start that did not throw, whatever polls, results, connection changes and halts follow, at most one get is issued before the next start |
| CaGetNode.ReactWhileCancelled | include/actions/caget_node.h:124-140 | one event on a cancelled node keeps it cancelled and leaves slot and `done_` alone |
| CaGetNode.CancelledIgnoresResults | include/actions/caget_node.h:114-140 | once cancelled by a halt or a timeout, no event before the next start fills the slot or sets `done_` |
| CaGetNode.ReactKeepsDelivered | include/actions/caget_node.h:133-140 | one event never replaces a delivered value |
| CaGetNode.DeliveredValueIsFinal | include/actions/caget_node.h:133-140 | a delivered value is never replaced before the next start |
| CaGetNode.PollOutcome | include/actions/caget_node.h:92-121 | outside monitor mode: SUCCESS exactly when a value was delivered, and the output is that value; FAILURE exactly when none was and now is strictly past the deadline, setting `cancelled_`; RUNNING otherwise |
| CaGetNode.PollIssuesOnlyWhenNeeded | include/actions/caget_node.h:85-101 | a poll issues one get exactly when connected, not requested and not in monitor mode; it throws exactly on an unreadable cached value in monitor mode or a refused issue |
| CaGetNode.MonitorPoll | include/actions/caget_node.h:86-90 | connected in monitor mode, a poll outputs the cached value with SUCCESS whatever the flags and deadline, issuing no get |
| CaGetNode.StartFacts | include/actions/caget_node.h:36-64 | a start clears the three flags, renews the slot and sets the deadline at now plus the timeout (1000 ms and monitor mode by default); on a disconnected handle it calls `Connect`, issues no get, and is RUNNING, or throws the channel-create error exactly when the channel cannot be created |
| CaGetNode.StartOnConnectedHandle | include/actions/caget_node.h:66-82 | connected in monitor mode: the cached value is output with SUCCESS and no get; otherwise exactly one get, RUNNING with a request outstanding on acceptance, fatal on refusal |
| CaGetNode.StaleResultAcceptedAfterRestart | include/actions/caget_node.h:133-140 | a cancelled node ignores a result, but after the next start the same late result is accepted as the new cycle's value |
| CaGetNode.CAGetNode.constructor | include/actions/caget_node.h:150-166 | flags false, no handle, timeout 1000 ms, monitor mode on |
| CaGetNode.CAGetNode.Construct | include/actions/caget_node.h:15-22 | the constructor attaches the thread to the context first: no node exactly when `EnsureAttached` throws, with its error; the context ends initialised exactly when it was or `Init` succeeds, holding the old or the new context, after `EnsureAttached`'s calls; otherwise a new node in its initial state |
| CaGetNode.CAGetNode.OnStart | include/actions/caget_node.h:36-83 | a missing `pv` throws after the reset; otherwise the node takes the start step on its own handle, or, on the first start, on the registry's handle with this node's listener appended, and the registry changes as one `Get` |
| CaGetNode.CAGetNode.BeginFirst | include/actions/caget_node.h:36-83 | the first start with `pv` given: ports read, handle acquired, request begun |
| CaGetNode.CAGetNode.BeginAgain | include/actions/caget_node.h:36-83 | a later start with `pv` given reuses the handle |
| CaGetNode.CAGetNode.ReadInputs | include/actions/caget_node.h:37-51 | resets, reads the ports, renews the promise and sets the deadline |
| CaGetNode.CAGetNode.Acquire | include/actions/caget_node.h:53-57 | the handle comes from `Get` and this node's listener is appended to it |
| CaGetNode.CAGetNode.Request | include/actions/caget_node.h:59-82 | connect and wait, read the cache in monitor mode, or issue the get, as `StartRequest` |
| CaGetNode.CAGetNode.Issue | include/actions/caget_node.h:73-80 | one `GetCBAs`; a refusal throws, an acceptance sets `requested_` |
| CaGetNode.CAGetNode.OnRunning | include/actions/caget_node.h:85-122 | the node and handle after the tick are those `Poll` computes from the old ones |
| CaGetNode.CAGetNode.OnHalted | include/actions/caget_node.h:124 | only `cancelled_` becomes true |
| CaGetNode.CAGetNode.HandleGetResult | include/actions/caget_node.h:133-140 | ignored once cancelled; a second value throws "promise already satisfied"; otherwise the slot holds the value and `done_` is set |
| CaGetNode.CAGetNode.HandleConnection | include/actions/caget_node.h:142 | only `connected_` changes |
| CaPutNode.ZeroOf | include/actions/caput_node.h:143 | the stand-in for the unread `value_` has type `T` |
| CaPutNode.MissingInputError | include/actions/caput_node.h:41-46 | a start throws exactly when `pv` or `value` is missing, `pv` checked first |
| CaPutNode.ReactKeepsPuts | include/actions/caput_node.h:84-127 | one event never changes the deadline or `value_`, and writes at most `value_` once more |
| CaPutNode.ReplayKeepsPuts | include/actions/caput_node.h:84-127 | over any run of events at most one value is written, and it is `value_` |
| CaPutNode.PutIssuedAtMostOncePerStart | include/actions/caput_node.h:36-127 | from a start that did not throw, at most one put is issued before the next start, and it writes the start's `value` input |
| CaPutNode.StartWritesOnlyChangedValues | include/actions/caput_node.h:59-81 | connected: SUCCESS without writing exactly when unforced and the cache already holds the value as `T`; an unreadable cache throws when unforced; anything else writes `value_` once, RUNNING on acceptance and fatal on refusal |
| CaPutNode.StartWaitsForConnection | include/actions/caput_node.h:59-64 | disconnected: no write, `Connect` called, and RUNNING, or the channel-create error exactly when the channel cannot be created |
| CaPutNode.PollOutcome | include/actions/caput_node.h:84-108 | a poll writes `value_` exactly when connected and not requested, with no unchanged-value check, and throws exactly when that write is refused; SUCCESS exactly on `done_`; FAILURE exactly when strictly past the deadline, setting `cancelled_` |
| CaPutNode.ReactWithoutSuccess | include/actions/caput_node.h:96-125 | an event other than a success report leaves `done_` false and the deadline unchanged |
| CaPutNode.NoSuccessWithoutReport | include/actions/caput_node.h:96-125 | while no callback reports success, `done_` stays false |
| CaPutNode.FailedPutEndsOnlyByTimeout | include/actions/caput_node.h:96-125 | after a failure report, a poll never succeeds and fails exactly when the start's deadline has strictly passed |
| CaPutNode.ReactWhileCancelled | include/actions/caput_node.h:110-122 | one event on a cancelled node leaves it cancelled with `done_` unchanged |
| CaPutNode.CancelledIgnoresResults | include/actions/caput_node.h:101-122 | after a timeout or a halt, no put callback changes `done_` before the next start |
| CaPutNode.CAPutNode.constructor | include/actions/caput_node.h:135-147 | flags false, no handle, timeout 1000 ms, no forced write |
| CaPutNode.CAPutNode.Construct | include/actions/caput_node.h:15-22 | the constructor attaches the thread first: no node exactly when `EnsureAttached` throws, with its error; the context ends initialised exactly when it was or `Init` succeeds, holding the old or the new context, after `EnsureAttached`'s calls; otherwise a new node in its initial state |
| CaPutNode.CAPutNode.OnStart | include/actions/caput_node.h:36-82 | a missing `pv` or `value` throws after the reset (with `pv_name_` read in the second case); otherwise the start step on the node's handle, or on the registry's handle with this node's listener appended at the first start |
| CaPutNode.CAPutNode.BeginFirst | include/actions/caput_node.h:36-82 | the first start with both inputs: ports read, handle acquired, request begun |
| CaPutNode.CAPutNode.BeginAgain | include/actions/caput_node.h:36-82 | a later start with both inputs reuses the handle |
| CaPutNode.CAPutNode.ReadInputs | include/actions/caput_node.h:37-51 | resets, reads the ports and sets the deadline |
| CaPutNode.CAPutNode.Acquire | include/actions/caput_node.h:53-57 | the handle comes from `Get` and this node's listener is appended to it |
| CaPutNode.CAPutNode.Request | include/actions/caput_node.h:59-81 | connect and wait, succeed on an unchanged value, or issue the put, as `StartRequest` |
| CaPutNode.CAPutNode.Issue | include/actions/caput_node.h:74-79 | one `PutCB` with `value_`; a refusal throws, an acceptance sets `requested_` |
| CaPutNode.CAPutNode.OnRunning | include/actions/caput_node.h:84-108 | the node after the tick is the one `Poll` computes |
| CaPutNode.CAPutNode.OnHalted | include/actions/caput_node.h:110 | only `cancelled_` becomes true |
| CaPutNode.CAPutNode.HandlePutResult | include/actions/caput_node.h:119-125 | ignored once cancelled; otherwise `done_` becomes the reported success |
| CaPutNode.CAPutNode.HandleConnection | include/actions/caput_node.h:127 | only `connected_` changes |
| NodeScenarios.GetReadsDeliveredValue | include/actions/caget_node.h:36-122 | a start on a channel that is not yet up, the connection-up and the value 42 give RUNNING, RUNNING, SUCCESS with output 42 after one get |
| NodeScenarios.GetTimesOutStrictlyAfterDeadline | include/actions/caget_node.h:114-136 | with a 100 ms timeout, the poll at 100 runs, the poll at 101 fails, and a later value is dropped |
| NodeScenarios.GetHaltedThenRestarted | include/actions/caget_node.h:36-140 | halting and restarting issues a second get; the first get's value is accepted, the second one finds its promise satisfied, and the poll outputs the first |
| NodeScenarios.PutOfUnchangedValue | include/actions/caput_node.h:59-93 | the node that started before the connection writes 0 on its poll; a second node on the connected shared handle succeeds at start without writing |
| NodeScenarios.FailedPutTimesOut | include/actions/caput_node.h:96-125 | a forced put reported as failed runs at the deadline and fails just after it, with one write |
| NodeScenarios.ConnectionUpThenDown | src/epics/ca/ca_pv.cpp:31-48 | both non-empty listeners are told of the connection-up and then the connection-down, in order; the cached value and native type survive the disconnect |

## Left out

- Threads, `std::mutex`, `std::atomic` and callback delivery from library threads are not modelled. Callbacks are methods that the environment calls between ticks, so every interleaving is sequential.
- The `ConcurrentGetSingleCreation` test (tests/epics/gtest_ca_pv_manager.cpp:82-100) is left out because it needs threads.
- The lock `ConnHandler` holds while it calls the listeners is left out.
- Channel Access library calls are status or value parameters, not behaviour. These include `ca_create_channel`, `ca_array_get_callback`, `ca_flush_io`, `ca_field_type`, `ca_element_count`, the context calls, `ca_puser` and `dbf_type_to_DBR_TIME`. A handle records its channel calls in a ghost log, and `GetCBAs` records the native type where the C++ passes `PreferredGetType(native_type_)`.
- A listener call is returned as data, a `Notification`, and the environment then calls `HandleConnection`. The same holds for the outcome of `GetHandlerAs`.
- `PutCB`, `PutHandler`, `MonitorHandler`, `EnsureStartMonitor`, `ClearMonitor`, the `CAPV` constructor `CAPV(ctx, pv_name)` and the `CAPV` destructor have no body in the repository. `PutCB`'s answer is a parameter, and the cached `pvdata_` is any value the environment stores (`CAPV.CacheValue`, the `CacheChanged` event). `CaPV.CAPV.constructor` assumes the constructor only runs the member initialisers of include/epics/ca/ca_pv.h:147-159.
- Floating-point values are reals: rounding, NaN and infinities are not modelled. An out-of-range floating-to-int32 cast is undefined in C++; the model yields INT32_MIN. A floating-to-uint16 cast of a value outside [0, 65536) is undefined in C++ as well: the model truncates to int32 as above and then reduces modulo 2^16, so -1.0 gives 65535, 70000.0 gives 4464, and a value outside the int32 range gives 0.
- The chid a failed `ca_create_channel` may leave behind is not modelled: after a failed create the handle has no channel.
- `CString` takes the whole buffer when it has no NUL. A `char[40]` buffer without one is undefined in C++.
- The unread `value_` of a new put node is `ZeroOf(T)`. For an arithmetic `T` the C++ member is left uninitialised.
- A new `CAContextManager` starts with a null `ctx_`. The C++ member has no initialiser, but it is only read once `initialized_` is true, or by `EnsureAttached` after a successful `Init`.
- The context pointer handed to each `CAPV` and held by `PVManager` is not modelled, because a handle never uses it in the modelled code.
- BehaviorTree.CPP plumbing is left out: ports, `setOutput`, the factory, `std::promise`/`std::future`, and the executor, which stops at a thrown exception. `Replay` stops at a tick that throws for this reason.
- `GetIssuedAtMostOncePerStart` and `PutIssuedAtMostOncePerStart` quantify over events between two starts, not over a whole tree run.
- The registry walkthroughs (`RegistryScenarios`) each start from a fresh manager. tests/epics/gtest_ca_pv_manager.cpp:14-15 shares one static `manager_` across the tests, so they hold as written only when each test runs in its own process; in one process a later test would see the entries an earlier one left (for example the expired TEST:PV1 entry).
- `PVArrayValue` is carried by `PVData`, but no conversion accepts it, as in the code, where the array branch is commented out.
- src/bt_runner.cpp, the logger, main.cpp, print_node.cpp, the soft-IOC test runner and the build files are not part of this model.
