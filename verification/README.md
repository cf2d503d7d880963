# A verified model of the Amarula D-Bus connman library

The library wraps connman's D-Bus interface in C++ objects. One GLib loop thread handles replies, signals and
agent calls; user threads start asynchronous calls; callbacks of the user run on the loop thread and may start
more calls. This project models that traffic and proves what it must guarantee for every interleaving, every
order of replies and every nesting of callbacks.

- `Bus`, `Works`, `Registry`, `Calls`: the life of asynchronous calls as a state machine. Its steps are the
  atomic regions of user threads, the loop thread, `stop` and the destructor. A call's callback is a finite tree
  of further calls. `Bus.DBus` and `Proxies.DBusProxy` are the C++ objects, proved against the same functions.
- `CallsInvariant`, `History`, `Drain`, `Startup`: what every step keeps, how the records of a state count the
  steps of the run behind it, and the theorems about whole runs: conservation of
  the counter, no lost quit, no early quit by a completion, exactly-once callbacks, proxy lifetime, termination, the drain of any
  forest of nested calls, and delivery of both initial lists at start-up.
- `Quits`: when the loop is told to quit too early, exactly: by a `stop` under which a call is started between its
  test and its quit, and by any `stop` while an initial list is still waited for.
- `Halts`, `Replies`: how a run can end in the middle (a reply that makes the property update throw, a list call or an
  agent's worker that uses a freed Manager, a worker that posts to a freed context), exactly when, and from which
  answers of the daemon; the 32-bit limit of the counter.
- `EnumTables`, `Variants`, `Folds`, `ServiceProperties`, `ServiceObject`: the enum tables, the property fold, and the
  properties of a service as a meaning of dictionaries and as an object updated in place.
- `Spellings`, `PropertyNames`, `ServiceEntries`: the tables and the updates entry by entry, in literals: each
  enumerator's D-Bus string, each property name, and the field it sets to which value.
- `ServiceCache`, `DaemonRuns`: the Manager's list of shared proxy objects on the heap, merged in place, and its
  agreement with the daemon over any run of replies and signals.
- `AgentInput`, `AgentReply`, `AgentLedger`: requested fields to reply dictionary, and the ledger of open agent
  invocations.
- `Locks`: the lock regions of all operations, and freedom from deadlock.
- `Handoff`: the condition-variable protocol of the example program.

`dafny verify dfyconfig.toml` checks everything.

## Assumptions

- Each update of `pending_calls_` is one atomic step. `onAnyAsyncStart` takes no lock (src/dbus/gdbus.cpp:20), so in
  the C++ program this is an assumption about the plain `unsigned int`, and so are the unlocked reads of
  `loop_` and `pending_calls_` in `stop`.
- The test and the quit of `stop` (src/dbus/gdbus.cpp:68-71) do not overlap the freeing of the loop
  (src/dbus/gdbus.cpp:107-108). They are three separate steps otherwise: other threads may run between the reading of
  the loop, the reading of the counter and the quit.
- Nobody calls into the library after `Connman` is destroyed, except the agent's detached workers.
- User completion callbacks and the agent's cancel and release handlers do not throw; `stop` is not called on
  the loop thread; construction succeeds.
- A callback uses, besides the proxy of its own call, only proxies that somebody (the list, or a handle of the
  user) still holds.
- An exception that leaves a completion function ends the program: it would have to pass through GLib and the
  loop thread's function. Such a reply is a step of its own (`Reject`), not assumed away: a dictionary with an
  invalid entry, for example a service `Type` that is not in the table (`Replies.UnlistedTypeIsInvalid`).
- While a D-Bus call is on the wire GLib keeps the GDBusProxy it was made on.
- A value of another D-Bus type than its property has is an error and changes nothing. GLib only reports a critical
  error there.
- Posting to the loop runs inline on the loop thread and is queued otherwise. Nothing is assumed about the order in
  which queued work and replies are handled, except in `StartupDelivery`, which names its assumption.
- For reads of `connecting` in the example program: one atomic step.

## Findings

Where a property expected of the code does not hold for all inputs, the code is modelled as it is:

- `stop` may quit too early. Its test and its quit hold no mutex, so a counted call can be started in between. A quit by
  the last completion leaves nothing outstanding (`NoEarlyQuit`); a quit by `stop` leaves what was started since its
  test read zero and not completed by then, so it is early if and only if a call was started in between
  (`QuitByStopExactly`; one such run is `EarlyQuitReached`).
- Start-up delivery needs replies in call order, because the two list calls are not counted. After construction, some
  continuation quits with an initial list still waited for if and only if one is waited for
  (`StopCutsOffExactly`; one such run is `OrderIsNeeded`). With replies in order the only list ever missing at the quit
  is that of an error reply (`StartupDelivery`).
- The list calls and the agent's workers carry the Manager's raw `this`. After `stop` and the Manager's release, some
  continuation uses it freed if and only if a list call is still waiting or a worker's handler still runs
  (`FreedExactlyWhen`, `FreedManagerReached`); with replies in call order only the workers can
  (`InOrderFreedExactlyWhen`). A worker may also post to the freed context (`ContextFreedExactlyWhen`).
- A GetProperties reply with an invalid entry throws before its call is completed, and that is the only kind of
  reply that does not complete its call (`PropertiesReplyCompletes`).
- `pending_calls_` is 32 bits wide, and exactly the multiples of 2^32 outstanding calls are confused with zero
  (`NoEarlyQuit`, `NoEarlyDecision`); a run with 2^32 unfinished calls in which `stop` quits is `FullCircle`.
- A RequestInput reply names a field the daemon did not ask for exactly when the user picks the SSID or WPS
  alternative and the request does not contain it (`ReplyKeys`, `SsidWasNotRequested`).
- A RequestInput is never answered exactly when its handler throws, and the invocation then keeps one reference
  (`QuietLedger`).
- A per-property callback that registers a new callback on its own proxy blocks the loop thread for good, and that is
  the only way the library's locks and waits can hang (`FinishesExactlyWhen`).
- A passphrase handler can return a line that was read before it asked exactly when the input loop was not at its
  prompt then: it held a line, whether it had checked `connecting` or not (`EarlyLineExactly`, `EarlyLineIsTaken`).

## Model

| member | source | states |
|---|---|---|
| Bus.BusStepKeepsInv | src/dbus/gdbus.cpp:63-114 | Every atomic action of start, the loop thread, stop (its two unlocked reads and its quit apart) and the destructor keeps the bus invariant, with "running_ implies a live, running loop" in it |
| Bus.CallEventsKeepInv | src/dbus/gdbus.cpp:13-20 | Counting a call and completing one keep the bus invariant at any moment after start |
| Bus.RunningMeansLiveLoop | src/dbus/gdbus.cpp:89-114 | running_ implies a running loop; between the two regions of stop the loop is still running unless a quit was requested |
| Bus.DBus.constructor | src/dbus/gdbus.cpp:22-23 | A new object is in the initial state of the machine |
| Bus.DBus.OnAnyAsyncStart | src/dbus/gdbus.cpp:20 | The object's whole state moves as the machine's counting step, 32-bit wrap included |
| Bus.DBus.OnAnyAsyncDone | src/dbus/gdbus.cpp:13-18 | The object's whole state moves as the machine's completion step: decrement, and quit exactly for the last call of a stopped bus |
| Bus.DBus.OnLoopStarted | src/dbus/gdbus.cpp:89-97 | Sets running_ once the loop iterates, and nothing else |
| Bus.DBus.MakeAndRunLoop | src/dbus/gdbus.cpp:101-105 | The thread's start leaves a new running loop |
| Bus.DBus.AfterLoop | src/dbus/gdbus.cpp:107-108 | After the loop returned it is freed and the pointer cleared |
| Bus.DBus.ClearRunning | src/dbus/gdbus.cpp:64-67 | First region of stop: only running_ changes |
| Bus.DBus.ReadLoop | src/dbus/gdbus.cpp:68 | First unlocked read of stop: goes on exactly with a running loop |
| Bus.DBus.ReadCounter | src/dbus/gdbus.cpp:69 | Second unlocked read of stop: decides to quit exactly at zero |
| Bus.DBus.QuitLoop | src/dbus/gdbus.cpp:70 | The quit of stop, whatever happened since the reads |
| Registry.NestedKeysAreNew | include/amarula/dbus/gproxy.hpp:280-292 | Any number of registrations made inside a callback get new, distinct, larger keys and leave all earlier entries as they were |
| Proxies.DBusProxy.PrepareCallback | include/amarula/dbus/gproxy.hpp:280-292 | Registry and counter after registering a callback or none: one fresh key exactly when there is a callback, one more pending call always |
| Proxies.DBusProxy.ExecuteCallBack | include/amarula/dbus/gproxy.hpp:203-217 | With a re-entrant callback: own callback found, nested registrations kept, exactly the own key erased, one completion after all nested starts; a failed lookup changes nothing but an empty entry under a missing key |
| Proxies.DBusProxy.UpdateProperty | include/amarula/dbus/gproxy.hpp:39-48 | One entry is applied, or rejected without effect |
| Proxies.DBusProxy.UpdateProperties | include/amarula/dbus/gproxy.hpp:126-135 | The dictionary is applied in order up to the first rejected entry |
| CallsInvariant.StepInv | include/amarula/dbus/gproxy.hpp:190-309 | Every step of every thread keeps all invariants: counter, registry, references, one completion at a time, exactly-once |
| CallsInvariant.RunInv | include/amarula/dbus/gproxy.hpp:190-309 | All invariants hold along every run |
| CallsInvariant.LookupFindsOwn | include/amarula/dbus/gproxy.hpp:207-209 | any_cast never fails and operator[] never inserts: the lookup finds this call's own callback, of the kind its completion function reads |
| CallsInvariant.CompleteRunsOwn | include/amarula/dbus/gproxy.hpp:294-309 | A reply runs the callback of its own call with its own flag, and no other |
| CallsInvariant.EraseKeyInv | include/amarula/dbus/gproxy.hpp:211-213 | Erasing after the callback removes exactly this call's entry even if the callback registered others |
| History.RunRecords | include/amarula/dbus/gproxy.hpp:294-309 | Over any run the flags recorded for a call are those of the replies to it, in order, for list calls whether a list came |
| History.CallMoves | include/amarula/dbus/gproxy.hpp:190-309 | At every step of a run each call moves from phase to phase only as its own reply, callback, completion and release say, and every other call stays as it is |
| History.CallAdded | include/amarula/dbus/gproxy.hpp:280-292 | Calls enter the run only by being started, with the work they were started with and nothing recorded |
| History.RunCounts | src/dbus/gconnman_manager.cpp:62-84 | A proxy's list and handle references are the enlistings and takings of the run since it was made, less the removals and drops |
| History.WorkersOfRun | src/dbus/gconnman_agent.cpp:135-171 | The agent's workers are the askings of the run less those that returned or threw, and those still to post the returns less the posts |
| Drain.CounterConservation | src/dbus/gdbus.cpp:13-20 | In every reachable state pending_calls_ is the number of counted calls not yet completed, modulo 2^32 |
| Drain.DecrementIsCovered | src/dbus/gdbus.cpp:15 | Every decrement is for an outstanding call, so the counter never underflows |
| Drain.NoLostQuit | src/dbus/gdbus.cpp:63-75 | "stop is past its check, no quit requested, nothing outstanding" is unreachable, whatever is started when |
| Drain.NoEarlyQuit | src/dbus/gdbus.cpp:13-18 | A quit by the last completion leaves no counted call unfinished, below 2^32 of them; any other quit is the one stop has decided on |
| Drain.NoEarlyDecision | src/dbus/gdbus.cpp:68-69 | stop decides to quit exactly when nothing is outstanding (mod 2^32) |
| Drain.ResultRouting | include/amarula/dbus/gproxy.hpp:294-309 | For every order of replies over any number of proxies: what a call recorded is the sequence of the success flags of the replies to that very call in the run, a set callback ran once with that flag, and no other callback ran |
| Drain.RegistryKeys | include/amarula/dbus/gproxy.hpp:203-217 | The keys of a proxy are exactly the counters of its unfinished calls with a callback, distinct and at most the counter; no lookup ever failed |
| Works.OwnProxyNeedsNothing | include/amarula/dbus/gproxy.hpp:280-292 | A callback that goes on using its own proxy, to any depth, needs nobody else's handle on it |
| Drain.ProxyLifetime | include/amarula/dbus/gproxy.hpp:190-201 | A proxy is alive exactly while the list entries and handles taken in the run less those dropped, plus its unreleased counted calls, are more than none, and its strong count is their sum, also for a proxy dropped from the list whose pending callbacks use it again |
| Drain.RunTotal | include/amarula/dbus/gproxy.hpp:203-217 | Over any run no node of the forest of calls is lost, doubled or invented |
| Drain.RunWeight | include/amarula/dbus/gproxy.hpp:203-217 | Termination: the steps that carry calls along are bounded by the work there was and the work that came in |
| Drain.NextStep | include/amarula/dbus/gproxy.hpp:323-364 | While the loop iterates, any call that is not released can be carried further |
| Drain.StopCannotHang | src/dbus/gdbus.cpp:68-74 | Past its check, stop always has a step of the loop thread ahead up to the join |
| Drain.DrainTheorem | src/dbus/gdbus.cpp:13-75 | For any forest of outstanding calls, any replies and any placement of stop that has not already decided under them: every node completes exactly once, no quit before the last, no getting stuck before it unless a rejected reply ends the program, and the quit requested once both the last completion and stop's check are done |
| Drain.DecidedQuitsEarly | src/dbus/gdbus.cpp:68-71 | The exception is real: a stop that has decided under unfinished calls quits under them |
| Startup.StartupDelivery | src/dbus/gconnman.cpp:16-28 | With replies in call order both initial list calls are through before the loop may quit, however early stop comes; each list is then stored exactly if its reply succeeded, and it is the one of the reply |
| Startup.StartupDrains | src/dbus/gconnman_manager.cpp:273-326 | When the last completion quits, or stop decides to, every call ever started has completed with its whole tree, those started by the two list callbacks among them |
| Quits.StopCutsOffExactly | src/dbus/gconnman_manager.cpp:318-326 | From every state after construction without a quit, wherever stop stands and whatever is outstanding: some continuation quits with an initial list still waited for if and only if one is waited for now |
| Quits.QuitByStopExactly | src/dbus/gdbus.cpp:68-71 | What the quit of stop leaves outstanding are the calls started, less those completed, since its test read zero; below 2^32 it is early if and only if a call was started in between, and all older calls are finished |
| Quits.EarlyQuitReached | src/dbus/gdbus.cpp:68-71 | A concrete run in constructor order in which stop quits with a call unfinished that was started after its test |
| Startup.OrderIsNeeded | src/dbus/gconnman_manager.cpp:318-326 | A concrete run in which the clock is answered first and the loop quits with both list calls in flight |
| Startup.FreedManagerReached | src/dbus/gconnman.cpp:23-28 | A concrete run in constructor order whose drain handles a list reply on the freed Manager |
| Halts.ManagerOutlivesLoop | src/dbus/gconnman.cpp:23-28 | While the loop thread lives no list call meets a freed Manager; only the destructor's drain can |
| Halts.DanglesExactly | src/dbus/gconnman_manager.cpp:318-326 | The next completion can touch the freed Manager if and only if it is gone and a list call waits |
| Halts.FreedExactlyWhen | src/dbus/gconnman.cpp:23-28 | After stop and the Manager's release, some continuation uses the freed Manager if and only if a list call is still waiting or an agent's worker is still in its handler |
| Halts.ListsNeverDangle | src/dbus/gconnman.cpp:16-28 | With replies in call order no list call is ever handled on a freed Manager |
| Halts.InOrderFreedExactlyWhen | src/dbus/gconnman_agent.cpp:135-140 | With replies in call order, after the release only a worker whose handler still runs can use the freed Manager, and if there is one some continuation does |
| Halts.ContextFreedExactlyWhen | src/dbus/gconnman_agent.cpp:152-167 | After the destructor, some continuation posts to the freed context if and only if a worker has still to post or its handler runs on a Manager kept alive by others |
| Halts.AnyNumberOutstanding | src/dbus/gdbus.cpp:20 | Every number of counted calls can be outstanding, and the counter then reads it modulo 2^32 |
| Halts.FullCircle | src/dbus/gdbus.cpp:68-71 | A run in which stop quits under 2^32 unfinished calls |
| Replies.PropertiesReplyCompletes | include/amarula/dbus/gproxy.hpp:62-82 | A GetProperties reply completes its call if and only if it is an error or has only valid entries; otherwise the call stays unfinished and the program ends |
| Replies.UnlistedTypeIsInvalid | src/dbus/gconnman_service.cpp:224-225 | A Type entry is valid exactly if the table lists its string |
| Replies.AnswerServices | src/dbus/gconnman_manager.cpp:273-316 | The Manager's new list is the one the machine stores for the call, handed to the callback unless empty; errors store nothing and unacceptable entries throw |
| EnumTables.EnumStringMap.SearchEnum | src/dbus/gdbus_private.hpp:22-30 | The loop returns the string of the first row for the enumerator, or throws |
| EnumTables.EnumStringMap.SearchString | src/dbus/gdbus_private.hpp:32-40 | The loop returns the enumerator of the first row with the string, or throws |
| EnumTables.AcceptedStrings | src/dbus/gdbus_private.hpp:32-40 | A string is accepted exactly when some row has it |
| EnumTables.EnumRoundTrip | src/dbus/gdbus_private.hpp:22-40 | fromString undoes toString for any table with distinct strings, alias rows allowed |
| EnumTables.EnumRoundTripExactly | src/dbus/gdbus_private.hpp:22-40 | For any table whatever, exactly which enumerators survive the round trip |
| EnumTables.StringRoundTrip | src/dbus/gdbus_private.hpp:22-40 | toString undoes fromString when no enumerator has two rows |
| EnumTables.CanonicalIdempotent | src/dbus/gdbus_private.hpp:22-40 | With alias rows, toString after fromString is an idempotent canonical spelling with the same meaning |
| EnumTables.AsToVector | src/dbus/gdbus_private.hpp:46-65 | The loop reads the list in order; the first unknown string throws |
| EnumTables.VectorElements | src/dbus/gdbus_private.hpp:46-65 | Reading succeeds exactly when every string is in the table, element by element |
| EnumTables.ListRoundTrip | src/dbus/gdbus_private.hpp:46-65 | The round trip lifted to lists of any length |
| ServiceProperties.PrivacyAlias | src/dbus/gconnman_service.cpp:81-85 | Both spellings of "preferred" are read, the correct one is written |
| Spellings.TypeSpelling | src/dbus/gconnman_service.cpp:17-26 | A service type is written as exactly its connman string, and a string is read as that type if and only if it is that string |
| Spellings.StateSpelling | src/dbus/gconnman_service.cpp:29-36 | The same for the service states |
| Spellings.SecuritySpelling | src/dbus/gconnman_service.cpp:39-45 | The same for the security modes |
| Spellings.ErrorSpelling | src/dbus/gconnman_service.cpp:48-58 | The same for the service errors, no error being the empty string |
| Spellings.IPv4MethodSpelling | src/dbus/gconnman_service.cpp:60-64 | The same for the IPv4 methods |
| Spellings.IPv6MethodSpelling | src/dbus/gconnman_service.cpp:74-79 | The same for the IPv6 methods |
| Spellings.EthernetMethodSpelling | src/dbus/gconnman_service.cpp:71-72 | The same for the Ethernet methods |
| Spellings.ProxyMethodSpelling | src/dbus/gconnman_service.cpp:66-69 | The same for the proxy methods |
| Spellings.PrivacySpelling | src/dbus/gconnman_service.cpp:81-85 | The same for the privacy modes, with the misspelt alias read as the same mode and never written |
| Variants.KeyFaithful | src/dbus/gconnman_service.cpp:221-288 | Different property names never take the same branch |
| ServiceEntries.NameEntry | src/dbus/gconnman_service.cpp:222-223 | A Name entry shows as the name and changes nothing else |
| ServiceEntries.FlagEntries | src/dbus/gconnman_service.cpp:230-237 | Favorite, Immutable, AutoConnect and mDNS each set their own flag to the given value and nothing else |
| ServiceEntries.StrengthEntry | src/dbus/gconnman_service.cpp:238-239 | Strength is shown as given |
| ServiceEntries.TypeEntry | src/dbus/gconnman_service.cpp:224-225 | A Type string shows as the enumerator with that spelling; a string that spells none throws |
| ServiceEntries.StateEntry | src/dbus/gconnman_service.cpp:226-227 | The same for State |
| ServiceEntries.ErrorEntry | src/dbus/gconnman_service.cpp:228-229 | The same for Error |
| ServiceEntries.ListEntries | src/dbus/gconnman_service.cpp:265-284 | Nameservers, their configuration, Domains and Timeservers are shown whole and in order, an empty list as none |
| ServiceEntries.SecurityEntry | src/dbus/gconnman_service.cpp:260-264 | A list of security modes is shown mode by mode |
| ServiceEntries.IPv4Entry | src/dbus/gconnman_service.cpp:240-243 | An IPv4 entry replaces the whole group by what its dictionary builds from a blank one, clears it if empty, and touches no other field |
| ServiceEntries.IPv6Entry | src/dbus/gconnman_service.cpp:244-247 | The same for IPv6 |
| ServiceEntries.EthernetEntry | src/dbus/gconnman_service.cpp:248-251 | The same for Ethernet |
| ServiceEntries.ProviderEntry | src/dbus/gconnman_service.cpp:252-255 | The same for the provider |
| ServiceEntries.ProxyEntry | src/dbus/gconnman_service.cpp:256-259 | The same for the proxy group |
| ServiceEntries.IPv4Fields | src/dbus/gconnman_service.cpp:124-137 | Within an IPv4 group Method, Address, Netmask and Gateway each set their own subfield to the value sent |
| ServiceEntries.IPv6Fields | src/dbus/gconnman_service.cpp:139-146 | The same for Method, Address and Gateway of an IPv6 group |
| ServiceEntries.PrivacyFields | src/dbus/gconnman_service.cpp:147-151 | The same for Privacy, in both spellings, and PrefixLength |
| ServiceEntries.EthernetFields | src/dbus/gconnman_service.cpp:177-190 | The same for Method, Interface, Address and MTU |
| ServiceEntries.ProviderFields | src/dbus/gconnman_service.cpp:192-204 | The same for Host, Domain, Name and Type of a provider |
| ServiceEntries.ProxyFields | src/dbus/gconnman_service.cpp:206-211 | The same for Method and Url of a proxy group |
| ServiceEntries.ProxyLists | src/dbus/gconnman_service.cpp:212-215 | Servers and Excludes of a proxy group are shown whole and in order |
| Folds.Parse | src/dbus/gconnman_service.cpp:157-175 | The loop is the fold of update over the entries, ended by the first exception |
| Folds.FoldConcat | include/amarula/dbus/gproxy.hpp:126-135 | Folding a concatenation is folding in turn |
| Folds.LastWriterWins | include/amarula/dbus/gproxy.hpp:126-135 | For any update that writes one field per key: after any dictionary every field has the last value under its key, over what was there |
| Folds.AsMapIsLast | include/amarula/dbus/gproxy.hpp:126-135 | The value a dictionary gives a key is that of the last entry with it |
| Folds.NeighboursCommute | include/amarula/dbus/gproxy.hpp:126-135 | Swapping two neighbours with different keys anywhere in a valid dictionary changes nothing |
| Folds.SameMapSameFold | include/amarula/dbus/gproxy.hpp:126-135 | Dictionaries that say the same lead to the same object, whatever their order and repetitions |
| ServiceProperties.GroupFollows | src/dbus/gconnman_service.cpp:240-259 | A nested group is replaced by what its own dictionary says or cleared by an empty one; no earlier subfield survives |
| ServiceProperties.ServiceFollows | src/dbus/gconnman_service.cpp:221-288 | ServProperties::update writes exactly the field of its key, and unknown keys change nothing |
| ServiceProperties.ServiceLastWriterWins | src/dbus/gconnman_service.cpp:221-288 | Any dictionary on any service: last writer wins field by field, and it succeeds exactly when every entry is valid |
| ServiceProperties.UnknownKeyIgnored | src/dbus/gconnman_service.cpp:285-287 | An entry with an unknown key can be left out of any dictionary, with the same result or the same exception |
| ServiceProperties.DictionaryAccepted | src/dbus/gconnman_service.cpp:221-288 | Whether a dictionary is accepted does not depend on the service it is applied to |
| ServiceObject.BuildGroup | src/dbus/gconnman_service.cpp:157-175 | A nested group is cleared by an empty value and otherwise parsed into a blank group |
| ServiceObject.Properties.constructor | include/amarula/dbus/connman/gservice.hpp:217-236 | A new object shows what no dictionary at all means |
| ServiceObject.Properties.Update | src/dbus/gconnman_service.cpp:221-288 | The object updated in place shows what the entry means for what it showed before; an exception leaves it as it was |
| ServiceCache.Manager.EraseRemoved | src/dbus/gconnman_manager.cpp:62-69 | Exactly the services with a removed path go, the order of the others stays |
| ServiceCache.WithoutInTwo | src/dbus/gconnman_manager.cpp:62-69 | Whether a service goes depends on its own path alone, and the order of the kept ones stays |
| ServiceCache.FindFirst | src/dbus/gconnman_manager.cpp:72-74 | The service found is the first with its path, also among duplicates |
| ServiceCache.Manager.FindService | src/dbus/gconnman_manager.cpp:72-74 | The first service with the path, or none |
| ServiceCache.Manager.ReuseOrCreate | src/dbus/gconnman_manager.cpp:72-83 | An existing object is reused and updated in place, otherwise a fresh one is made; no other listed object changes |
| ServiceCache.Manager.MergeInto | src/dbus/gconnman_manager.cpp:70-84 | The new order, object by object, with the properties of every listed object |
| ServiceCache.Manager.ProcessServicesChanged | src/dbus/gconnman_manager.cpp:59-86 | The merge contract: paths in the signal's order, kept paths keep their object, all others are fresh and distinct, and every object outside the changed list keeps its properties |
| ServiceCache.Manager.GotServices | src/dbus/gconnman_manager.cpp:273-316 | A snapshot replaces the list by fresh proxies in order and is handed on unless empty; an error reply changes nothing |
| ServiceCache.Manager.OnServicesChanged | src/dbus/gconnman_manager.cpp:382-429 | The signal handler merges and hands on the new list |
| ServiceCache.RemovedListIrrelevant | src/dbus/gconnman_manager.cpp:62-69 | If no path is both removed and changed, the removed list has no effect on the result |
| DaemonRuns.DeliverAll | src/dbus/gconnman_manager.cpp:382-429 | Cache refinement: after every event of any run of snapshots, service signals and property signals the client's list is the daemon's, paths, order and properties |
| DaemonRuns.RetainedEntry | src/dbus/gconnman_manager.cpp:75-77 | A retained service is found again as the same object and its delta brings it to the daemon's values |
| DaemonRuns.NewEntry | src/dbus/gconnman_manager.cpp:78-83 | A new or re-added service is not found and its complete dictionary gives the daemon's values |
| AgentInput.ParseField | src/dbus/gconnman_manager.cpp:473-492 | A field keeps the request's name; its type is the text of the last entry named Type and its requirement that of the last named Requirement, each none if there is no such entry or its value is no string |
| AgentInput.ParseFields | src/dbus/gconnman_manager.cpp:462-497 | One such description per requested field, in order |
| AgentInput.CollectFlags | src/dbus/gconnman_manager.cpp:499-533 | The flag loop computes the existential over all fields |
| AgentInput.Classify | src/dbus/gconnman_manager.cpp:499-556 | The result meets the declarative priority specification, for lists of any length |
| AgentInput.ClassifiesOnce | src/dbus/gconnman_manager.cpp:535-555 | Exactly one type fits any set of fields |
| AgentInput.ClassificationDependsOnSet | src/dbus/gconnman_manager.cpp:499-556 | Order and repetition of the fields play no role |
| AgentInput.RequestClassified | src/dbus/gconnman_manager.cpp:462-556 | Said on the request itself, not on parsed fields: which type a request has, by its own names, Type and Requirement entries |
| AgentReply.HandleRequestInput | src/dbus/gconnman_manager.cpp:88-200 | From request to reply: the type is the one of the request as it was sent, the answer holds the values of the callback for that type and service, no key twice, and every key is a name in the request if and only if the user did not pick an alternative missing from it; an unknown service gets an empty reply |
| AgentReply.ReplyKeys | src/dbus/gconnman_manager.cpp:112-197 | For every field list and handler result: no duplicate keys, and every key was requested if and only if the user did not pick an alternative missing from the request |
| AgentReply.PassphraseKeys | src/dbus/gconnman_manager.cpp:113-133 | In the two passphrase cases every key was requested, whichever alternative is picked |
| AgentReply.PrimaryIsRequested | src/dbus/gconnman_manager.cpp:112-197 | With the primary alternative every key is the name of a requested field |
| AgentReply.SsidWasNotRequested | src/dbus/gconnman_manager.cpp:134-154 | A concrete request answered with a key it did not contain |
| AgentReply.HandleReportError | src/dbus/gconnman_manager.cpp:202-223 | Retry exactly when the service is known, a callback is set and it says so |
| AgentLedger.Agent.DispatchMethodCall | src/dbus/gconnman_agent.cpp:110-231 | The invocation's references, replies and callback count after dispatch, for every method name and every set of installed handlers |
| AgentLedger.Invocation.RunWorker | src/dbus/gconnman_agent.cpp:135-171 | The worker posts its result with its reference, or drops the reference when the callback throws |
| AgentLedger.Invocation.RunPosted | src/dbus/gconnman_agent.cpp:154-162 | The posted source answers with the worker's result |
| AgentLedger.Invocation.Destroy | src/dbus/gconnman_agent.cpp:164-167 | The destroy notification drops the last reference |
| AgentLedger.LedgerOfRun | src/dbus/gconnman_agent.cpp:110-231 | Over any run with any number of open invocations: each one's replies and references are exactly what its own history says |
| AgentLedger.AnsweredAtMostOnce | src/dbus/gconnman_agent.cpp:110-231 | No invocation is answered twice, none is touched after its last reference, and references are gone exactly when answered and released |
| AgentLedger.StepKeepsSent | src/dbus/gconnman_agent.cpp:110-231 | A reply once sent is never followed by another |
| AgentLedger.QuietLedger | src/dbus/gconnman_agent.cpp:135-171 | When nothing is left to run, every invocation has been answered once and released, except exactly the RequestInputs whose handler threw, which are never answered |
| AgentLedger.RequestInputLedger | src/dbus/gconnman_agent.cpp:110-231 | Over any run, by method name and installed handler: RequestInput with a handler is never answered NotSupported nor in dispatch and asks that handler once, when its worker ends; without one it is answered NotSupported at once; every other name has its one answer from dispatch on |
| AgentLedger.WorkRunsOut | src/dbus/gconnman_agent.cpp:135-171 | Only finitely many steps fit between two arrivals |
| Locks.EventHolds | include/amarula/dbus/gproxy.hpp:50-60 | Every event, its log lines included, takes locks in the one order and enters user code as required, if and only if it is not a self-registering per-property callback |
| Locks.CompletionHolds | include/amarula/dbus/gproxy.hpp:203-217 | A completion runs its callback with no lock held, and nests the bus lock in the proxy lock |
| Locks.ListEventHolds | src/dbus/gconnman_manager.cpp:286-310 | List callbacks run after the Manager's lock is released |
| Locks.CompletionSeen | include/amarula/dbus/gproxy.hpp:203-217 | A completion runs a set callback exactly once, with nothing held, and takes the bus lock exactly once, with the proxy's lock held |
| Locks.SignalSeen | include/amarula/dbus/gproxy.hpp:50-60 | A property signal runs the property's callback exactly once, under the callback lock alone |
| Locks.ListSeen | src/dbus/gconnman_manager.cpp:286-310 | A list event takes the Manager's lock once and runs a set callback exactly once after it |
| Locks.AgentSeen | src/dbus/gconnman_manager.cpp:88-114 | An agent handler looks the service up under the Manager's lock and then asks the user exactly once with nothing held |
| Locks.CallbacksStartUnlocked | src/dbus/gconnman_manager.cpp:418-428 | In every reachable state completion, list and agent callbacks start with no library lock held, per-property callbacks with exactly their own |
| Locks.NoDeadlock | src/dbus/gdbus.cpp:13-75 | For any events, callbacks, threads and interleaving, waits for the loop thread and the join in stop included: until all are done some thread can run, and each step brings the end nearer |
| Locks.SelfRegistrationHangs | include/amarula/dbus/gproxy.hpp:182-187 | A per-property callback registering on its own proxy stops the loop thread in every interleaving |
| Locks.FinishesExactlyWhen | include/amarula/dbus/gproxy.hpp:50-60 | All threads can run to their end if and only if no per-property callback re-registers on its own proxy |
| Handoff.Terminal.Request | examples/connmanctl.cpp:204-207 | The handler sets connecting and goes to sleep |
| Handoff.Terminal.Wake | examples/connmanctl.cpp:207-208 | A woken handler sleeps again while connecting is set, and otherwise returns the stored line |
| Handoff.Terminal.Check | examples/connmanctl.cpp:244 | A line is kept for storing or run as a command, by what connecting was at the check |
| Handoff.Terminal.Store | examples/connmanctl.cpp:245-250 | Storing a line clears connecting and notifies every sleeping handler |
| Handoff.EachLineOnce | examples/connmanctl.cpp:244-253 | The lines whose check saw connecting are exactly those handed over, all others exactly the commands |
| Handoff.ReturnsLatestLine | examples/connmanctl.cpp:202-209 | With any number of handlers waiting, a handler returns the latest stored line, stored after it set connecting |
| Handoff.NoLostWakeup | examples/connmanctl.cpp:202-209 | A handler asleep without a notification is one that connecting still stands for; once it is clear the next round returns |
| Handoff.ReturnedForGood | examples/connmanctl.cpp:208 | What a handler returned stays what it returned in every continuation |
| Handoff.EarlyLineExactly | examples/connmanctl.cpp:236-253 | In every reachable state: a handler that asks now can return a line read before it asked if and only if the input loop is not at its prompt |
| Handoff.EarlyLineIsTaken | examples/connmanctl.cpp:241-252 | A concrete run in which a line read before the request becomes the passphrase |

## Left out

- GLib and GIO themselves, the bus connection, proxy creation and introspection: the loop is a step relation over
  queued work and replies.
- GVariant encoding and reference counts, other than those of proxies and agent invocations.
- CallsInvariant.StepInv: the wrap-around of the `size_t` callback counter is not modelled; it would need 2^64 callbacks on one proxy.
- Drain.DrainTheorem: covers forests of fewer than 2^32 calls, because the 32-bit counter cannot tell 2^32 calls from none (`Halts.FullCircle`).
- Startup.StartupDelivery: speaks of runs with fewer than 2^32 calls, for the same reason (`Halts.FullCircle`).
- ServiceCache.Manager.GotServices: a body of another D-Bus type than `a(oa{sv})` is only told apart as a missing one.
- AgentReply.HandleRequestInput: the field list is taken as well-typed; GLib stops the iteration at a malformed one.
- Locks.NoDeadlock: GLib's own locks, the user's locks and the short-lived local mutex of each posted construction are
  not in it; a wait is for a point the loop thread will reach, or for its end.
- Exceptions out of signal handlers: an invalid entry in a PropertyChanged or ServicesChanged signal ends the program
  like a rejected reply, but only replies are steps of the call machine.
- The properties of the clock: `Replies` speaks of service dictionaries.
- The nested groups (IPv4, IPv6, Ethernet, Provider, Proxy) are values: each is built while it is parsed and then only
  replaced as a whole, so update in place within one is not modelled.
- Technology signals: the handler compares names carrying a `g-signal::` prefix, and whether GLib passes that form
  cannot be seen in this code, so the technology list is not claimed to follow the daemon after start-up.
- `ClockProperties`, `TechProperties`, `ManaProperties` and the setters: repeats of the service fold and of the
  generic call path.
- Printing, logging text, time formatting, and the rest of the connmanctl program.
- Data races and memory-model effects: every step is atomic.
