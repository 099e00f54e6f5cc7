# FastFlow client: verified model

This project models the protocols and decision code of the FastFlow VPN client
in Dafny and proves what they keep over every input and every run. It stands
beside the repository and runs none of it.

`dafny verify dfyconfig.toml` checks everything.

## What is modelled

**Network-state replication** (`NetworkMonitor`, `JniShim`, `NetifRegistry`,
`NetifSystem`, `NetifFacts`, `NetifDedupe`, `NetifObservers`, `Netif`, `Csv`,
`Separated`, `NativeBridge`).
The Kotlin monitor, the C++ gate and the Go registry are classes proved against
specification functions (`NetworkMonitor.Execute`, `JniShim.Deliver`,
`NetifRegistry.Apply`). `NetifSystem` runs them as one machine of atomic steps:
posting, dispatch, each single downcall, binding, and the three stages of
`stop()`. A task's own field updates are one step, because one thread owns them;
its downcalls are separate steps, because binding can happen between two.

`NetifFacts` ties the machine to the history of reported callbacks, and `Netif` says
field by field what of a reported link arrives in the engine.

The registry's default interface is a frozen copy and does not follow later
updates, so no theorem equates it with a table entry except right after a replay.
Agreement of the tables is exact from the first replay completed after binding,
and only while the networks the registry holds can be sent again when a replay
runs. `ReplayAgreesExactly` shows that condition to be exact for one replay,
`AgreementExactly` for whole runs, and `GhostRunLeavesAGhost` is a run that violates it.

**Engine lifecycle and traffic** (`EngineLifecycle`, `Traffic`). One program
counter for the holder of the mutex, one step for every atomic store, pollers
beside it. The `Engine` class moves the same machine step by step and mirrors its
fields at every store. Panics, failures and stuck closes of the core are
outcomes. Rates use integer nanoseconds and exact division before truncation.

**Helper daemon** (`LineFraming`, `PipeProtocol`, `PipeServer`, `HelperDaemon`). Replies are
paired with requests by lockstep line framing only; the machine contains calls,
reads of any size on both ends, timeouts, failures, teardown and reconnection.
The accept loop and `stop` interleave by critical sections and system calls. What
a request does is stated of a small firewall and route table.
That JSON text has no raw newline (section 7 of RFC 8259) is the one fact about
the encoding that is used.

**Config compilation** (`RuleList`, `RouteConfig`, `DnsConfig`, `ConfigBuilder`,
`ConfigReading`, `EmittedConfig`, `ConfigRedaction`). Both rule lists get a first-match semantics
and are proved equal to a policy without lists. `ConfigReading` reads the emitted
JSON back, so the policies hold of the config itself; `EmittedConfig` follows a
packet or a query through that JSON to the outbound or resolver it really reaches. DNS bootstrap is a
well-founded dependency relation. Redaction is specified by places along a path,
independently of the loops that perform it.

**Use cases and versions** (`UseCases`, `KillSwitch`, `Versions`). Start, stop and
toggle are sequences of awaited calls on one of two platforms. Each call may
return or throw, and either way may or may not have had its effect; only the
engine's stop, the settings store, the daemon's answers and the Android flag are
known to have worked when they return. On Windows the block is a firewall policy
reached through the daemon or netsh. On Android it is a property of the VpnService
interface, fixed when that is built. The update check's loop is compared with
lexicographic order.

Foreign calls are parameters: what sing-box, the operating system, the random
source, rule-set lookups, address parsing and number parsing answer.

## Where code and documentation disagree

The model follows the code.

- `windows_daemon/README.md:6-20` describes a loopback TCP socket; the daemon and
  its client use a named pipe. The same file lists an `appPath` parameter; the
  daemon ignores it and uses the verified path of its peer (`HelperDaemon.KillSwitchRequestSetsTheBlock`).
- `data/vpn_engine/config_builder/sing_box_config_builder.dart:50-52` says proxy
  credentials are redacted; the code redacts inbound user passwords and the clash secret, and the profile's own
  credentials stay in the exported outbound (`ConfigBuilder.ExportShowsTheOutbound`).
- `infrastructure/updates/github_updater_service.dart:91-92` says a malformed tag can
  never be an update; that holds unless the running version's first non-zero segment
  is negative, which only a hexadecimal segment beyond the signed 64-bit range
  produces (`Versions.MalformedTagIsNewerExactly`, `Versions.AMalformedTagNags`).
- `core/use_cases/connection/start_vpn_usecase.dart:77` presents the kill switch as in
  force once set. On Windows
  `infrastructure/os_windows/windows_route_manager.dart:34-41` returns with nothing
  done when there is neither elevation nor a daemon, and `:115-116` ignores the exit
  code of netsh. On Android
  `android/app/src/main/kotlin/com/fastflow/vpn/FastFlowVpnService.kt:120-123` sets a flag for the next
  interface, and the start sets it after its own interface is built
  (`KillSwitch.NoHelperLeavesItUnprotected`,
  `KillSwitch.AndroidFirstConnectionIsUnprotected`).
- `FastFlowVpnService.kt:122` says the Dart layer triggers a reconnect after a toggle;
  `core/use_cases/connection/toggle_kill_switch.dart:16-24` does not. `:73` says the
  kill switch survives a process restart; the restarted service gets no intent and
  builds no interface (`:69`).
- `core/use_cases/connection/stop_vpn_usecase.dart:7-9` says the block is lifted only by
  an explicit stop. That holds on Windows; on Android a second start or the end of the
  process takes it away (`KillSwitch.BlockStaysUnlessDropped`).
- `core/use_cases/connection/start_vpn_usecase.dart:21-23` says OS state is rolled back if
  the engine fails to start; an engine that throws instead of answering is not rolled
  back, and on Android a start refused because the engine already runs costs the
  running connection its interface (`KillSwitch.TunnelLostExactly`).
- `core/domain/repositories/i_vpn_platform.dart:54` says teardown includes firewall
  state; the Windows implementation only drops the system proxy
  (`infrastructure/os_windows/windows_vpn_platform.dart:59-62`).
- `data/vpn_engine/config_builder/routing_builder.dart:45-57` downloads the ad rules
  directly so that they do not depend on the tunnel; the lookup of their host can still
  be sent to the remote server, which is reached through the proxy
  (`DnsConfig.AdRulesAreIndependentExactly`).

## Model

| member | source | states |
|---|---|---|
| `NetifSystem.AgreementFromFirstReplay` | android/app/src/main/kotlin/com/fastflow/vpn/NetworkStateMonitor.kt:106-254 | In every interleaving of posted tasks, single downcalls, binding and stop: between tasks, from the first replay completed after binding on, the registry equals the announced snapshots, keys and values, provided what the registry holds can be sent again whenever a replay runs |
| `NetifSystem.NothingAnnouncedIsMissing` | android/app/src/main/kotlin/com/fastflow/vpn/NetworkStateMonitor.kt:229-254 | The completeness half of that agreement needs no assumption: every announced network is in the registry with the announced value |
| `NetifSystem.RegistryShowsOnlyTheAnnounced` | data/vpn_engine/platform_android.go:151-169 | The soundness half, also before the first replay: the registry never holds a network that is not announced |
| `NetifSystem.AgreementExactly` | android/app/src/main/kotlin/com/fastflow/vpn/NetworkStateMonitor.kt:229-254 | The exact condition for whole runs: at every point, once the current task's downcalls have passed, registry and announcements agree (from the first replay after binding on), if and only if every replay that ran found all the registry held still buildable |
| `NetifSystem.ReplayAgreesExactly` | android/app/src/main/kotlin/com/fastflow/vpn/NetworkStateMonitor.kt:229-238 | A replay on a bound shim leaves monitor and registry in agreement if and only if every network the registry holds is still buildable when the replay runs |
| `NetifSystem.GhostRunLeavesAGhost` | android/app/src/main/kotlin/com/fastflow/vpn/NetworkStateMonitor.kt:125-129 | A concrete run without that condition: announced, interface name lost, replayed, lost; the loss is silent and the registry keeps the network |
| `NetifSystem.DefaultPresenceAgrees` | android/app/src/main/kotlin/com/fastflow/vpn/NetworkStateMonitor.kt:256-277 | Between tasks: an engine default implies a monitor default, and once synced the engine has a default exactly when the named best network has a non-negative handle |
| `NetifSystem.ReplayFreezesTheFullEntry` | data/vpn_engine/platform_android.go:175-200 | Because a replay sends networks before the default, the default it freezes is the full tracked entry, not the sparse payload |
| `NetifSystem.CleanedMeansEmpty` | android/app/src/main/kotlin/com/fastflow/vpn/NetworkStateMonitor.kt:198-221 | In every interleaving of posted tasks with stop: once the cleanup task and its reset have passed, the registry is empty and has no default |
| `NetifSystem.CleanedStaysSilent` | android/app/src/main/kotlin/com/fastflow/vpn/NetworkStateMonitor.kt:92-102 | From there on no event makes that monitor change the registry again, whatever is queued or still posted |
| `NetifSystem.StopAlwaysCleansUp` | android/app/src/main/kotlin/com/fastflow/vpn/NetworkStateMonitor.kt:207-218 | Whatever was queued, draining the thread of a stopped monitor ends with the cleanup done and the registry empty |
| `NetifSystem.BoundExactly` | android/app/src/main/cpp/fastflow_jni.cpp:156-199 | In every run the shim is bound exactly if it was at first or has been since; stopping never unbinds it |
| `NetifSystem.StopThenStartAfresh` | android/app/src/main/kotlin/com/fastflow/vpn/NetworkStateMonitor.kt:198-221 | A whole stop from any reachable point of a running monitor: nothing can be posted any more, the thread ends cleaned up, and the next monitor starts from scratch |
| `NetifDedupe.DedupeIsInvisible` | android/app/src/main/kotlin/com/fastflow/vpn/NetworkStateMonitor.kt:242-254 | For every task sequence on a bound shim, the deduplicated stream and the stream that sends every candidate leave the same monitor and the same interface table |
| `NetifDedupe.ExtraCallsAreRepeats` | android/app/src/main/kotlin/com/fastflow/vpn/NetworkStateMonitor.kt:256-277 | Per task, dropping deduplication adds at most one call, and that call, update or default change, repeats what was last sent |
| `NetifFacts.FactsAreTheLatest` | android/app/src/main/kotlin/com/fastflow/vpn/NetworkStateMonitor.kt:106-129 | In every interleaving the monitor holds exactly the last capabilities and properties reported for each network not lost since |
| `NetifFacts.TheEngineSeesTheLatestFacts` | android/app/src/main/kotlin/com/fastflow/vpn/NetworkStateMonitor.kt:106-254 | From callback history to engine: between tasks, from the first replay completed after binding on, every network whose last reported halves are complete is in the registry, built from exactly those |
| `NetifFacts.TheEngineShowsOnlyTheReported` | android/app/src/main/kotlin/com/fastflow/vpn/NetworkStateMonitor.kt:229-254 | In replay-safe runs the registry shows no network without reported capabilities and properties |
| `NetifFacts.DefaultIsTheLatest` | android/app/src/main/kotlin/com/fastflow/vpn/NetworkStateMonitor.kt:135-163 | In every interleaving the default held is the last one reported, and the default last sent is its snapshot |
| `NetifFacts.SentDefaultByValue` | android/app/src/main/kotlin/com/fastflow/vpn/NetworkStateMonitor.kt:256-265 | The default last sent carries the handle, the name, the system's index for that name and the flags of the capabilities |
| `NetifObservers.QuietObserversAreCurrent` | data/vpn_engine/platform_android.go:191-217 | With callbacks that may register and unregister between any two notifications: at quiescence every callback registered at the last default change holds the current default, and the manager known at the last change last pulled the current table |
| `NetifObservers.CallbacksAreTheLive` | data/vpn_engine/platform_android.go:250-260 | In every run the callback list is exactly those registered and not since unregistered |
| `NetifObservers.RegisteredObserversAreCurrent` | data/vpn_engine/platform_android.go:191-217 | In the events' own terms: at quiescence every callback registered before the last default change, and not unregistered before it, last received the current default |
| `NetifObservers.TheManagerIsCurrent` | data/vpn_engine/platform_android.go:151-230 | In the events' own terms: at quiescence the manager set last before the last registry call that took place has pulled the table as it is, unless that call lost a network the registry did not have |
| `NetifObservers.PullPrecedesNotification` | data/vpn_engine/platform_android.go:191-199 | When a callback is told of a default, the manager has already pulled the table that goes with it |
| `NetifObservers.NoStaleNotification` | data/vpn_engine/platform_android.go:262-274 | No interleaving hands a callback a value that is not the default at that moment |
| `NetifRegistry.RefinesHistory` | data/vpn_engine/platform_android.go:151-217 | After any call sequence the table is the last-writer map since the last reset, and the default is the copy frozen at the last setDefault (or the sparse payload of an untracked handle), whatever updates and losses follow |
| `NetifRegistry.BuildNetworkInterface` | data/vpn_engine/platform_android.go:320-334 | The append loops build the interface the specification gives |
| `NetifRegistry.NetifRegistry.Update` | data/vpn_engine/platform_android.go:151-158 | New state, and the pulls made after the lock |
| `NetifRegistry.NetifRegistry.Lost` | data/vpn_engine/platform_android.go:160-169 | New state; the manager is refreshed only if the handle was tracked |
| `NetifRegistry.NetifRegistry.SetDefault` | data/vpn_engine/platform_android.go:175-200 | New default, then one pull, then every callback in list order |
| `NetifRegistry.NetifRegistry.Reset` | data/vpn_engine/platform_android.go:205-217 | Empty state; the callbacks survive and are told there is no default |
| `NetifRegistry.NetifRegistry.Interfaces` | data/vpn_engine/platform_android.go:234-242 | Every tracked entry exactly once, in some order |
| `NetifRegistry.NetifRegistry.RegisterCallback` | data/vpn_engine/platform_android.go:250-254 | A new element, distinct from all in the list, at its end |
| `NetifRegistry.NetifRegistry.UnregisterCallback` | data/vpn_engine/platform_android.go:256-260 | Exactly that element leaves; an unknown one changes nothing |
| `NetifRegistry.NetifRegistry.FireCallbacks` | data/vpn_engine/platform_android.go:197-199 | Every copied callback once, in order, with the given value |
| `JniShim.DropsAreCounted` | android/app/src/main/cpp/fastflow_jni.cpp:235-259 | Any number of drops is counted, modulo 2^32 |
| `JniShim.Shim.BindGoEngine` | android/app/src/main/cpp/fastflow_jni.cpp:156-199 | Bound once means bound for good; otherwise bound exactly when the name is not empty and every export resolves |
| `JniShim.Shim.NetifUpdate` | android/app/src/main/cpp/fastflow_jni.cpp:235-259 | Forwarded when bound, otherwise only counted as dropped |
| `JniShim.Shim.NetifLost` | android/app/src/main/cpp/fastflow_jni.cpp:261-267 | Forwarded when bound, otherwise only counted as dropped |
| `JniShim.Shim.NetifDefaultChanged` | android/app/src/main/cpp/fastflow_jni.cpp:269-294 | A negative handle becomes a null default; other payloads carry name, index and flags only |
| `JniShim.Shim.NetifReset` | android/app/src/main/cpp/fastflow_jni.cpp:296-299 | Forwarded when bound, dropped silently otherwise |
| `NativeBridge.OneMonitorAtATime` | android/app/src/main/kotlin/com/fastflow/vpn/NativeBridge.kt:42-97 | In every run of starts and stops at most one monitor is alive, all others are stopped, binding implies loading and happens at most once |
| `NativeBridge.StateFollowsTheCalls` | android/app/src/main/kotlin/com/fastflow/vpn/NativeBridge.kt:42-97 | In every run: the shim is loaded exactly if some start could load it, the engine bound exactly if some start could bind it with the shim loaded by then, and a monitor is alive exactly if some start had the shim and no stop came after |
| `NativeBridge.StartsAreIdempotent` | android/app/src/main/kotlin/com/fastflow/vpn/NativeBridge.kt:44-59 | Repeated starts keep the first monitor |
| `NativeBridge.NativeBridge.EnsureEngineBound` | android/app/src/main/kotlin/com/fastflow/vpn/NativeBridge.kt:84-97 | Loads the shim if needed, binds if it can, retries while unbound |
| `NativeBridge.NativeBridge.Start` | android/app/src/main/kotlin/com/fastflow/vpn/NativeBridge.kt:44-59 | New state of startMonitor |
| `NativeBridge.NativeBridge.Stop` | android/app/src/main/kotlin/com/fastflow/vpn/NativeBridge.kt:62-66 | New state of stopMonitor |
| `NetworkMonitor.NetworkStateMonitor.OnCapabilitiesChanged` | android/app/src/main/kotlin/com/fastflow/vpn/NetworkStateMonitor.kt:113-117 | New fields and the downcalls delivered to the registry |
| `NetworkMonitor.NetworkStateMonitor.OnLinkPropertiesChanged` | android/app/src/main/kotlin/com/fastflow/vpn/NetworkStateMonitor.kt:119-123 | New fields and the downcalls delivered to the registry |
| `NetworkMonitor.NetworkStateMonitor.OnLost` | android/app/src/main/kotlin/com/fastflow/vpn/NetworkStateMonitor.kt:125-129 | The loss is announced only if the network was |
| `NetworkMonitor.NetworkStateMonitor.OnDefaultAvailable` | android/app/src/main/kotlin/com/fastflow/vpn/NetworkStateMonitor.kt:135-143 | Seeds the default and emits it |
| `NetworkMonitor.NetworkStateMonitor.OnDefaultLost` | android/app/src/main/kotlin/com/fastflow/vpn/NetworkStateMonitor.kt:159-163 | Clears the default only for the network that is the default |
| `NetworkMonitor.NetworkStateMonitor.EmitIfComplete` | android/app/src/main/kotlin/com/fastflow/vpn/NetworkStateMonitor.kt:242-254 | Sends exactly when both halves are there, the network is no VPN and the snapshot is new |
| `NetworkMonitor.NetworkStateMonitor.EmitDefault` | android/app/src/main/kotlin/com/fastflow/vpn/NetworkStateMonitor.kt:256-265 | Sends the default snapshot unless it was the last one sent |
| `NetworkMonitor.NetworkStateMonitor.ClearDefault` | android/app/src/main/kotlin/com/fastflow/vpn/NetworkStateMonitor.kt:267-277 | Forgets the default and sends the no-default snapshot once |
| `NetworkMonitor.NetworkStateMonitor.Replay` | android/app/src/main/kotlin/com/fastflow/vpn/NetworkStateMonitor.kt:229-238 | The replay loop over any iteration order, then the default |
| `NetworkMonitor.NetworkStateMonitor.CleanUp` | android/app/src/main/kotlin/com/fastflow/vpn/NetworkStateMonitor.kt:208-215 | Empties the fields and resets the registry |
| `NetworkMonitor.ReplayNetworksState` | android/app/src/main/kotlin/com/fastflow/vpn/NetworkStateMonitor.kt:231-234 | The replay loop visits every entry once: unbuildable entries end up unannounced, all others announced anew |
| `NetworkMonitor.ReplayNetworksCalls` | android/app/src/main/kotlin/com/fastflow/vpn/NetworkStateMonitor.kt:231-234 | Exactly the updates of the buildable networks go out |
| `NetworkMonitor.NetworkStateMonitor.OnAvailable` | android/app/src/main/kotlin/com/fastflow/vpn/NetworkStateMonitor.kt:107-111 | Only starts tracking a network that is not tracked |
| `NetworkMonitor.NetworkStateMonitor.OnDefaultCapabilitiesChanged` | android/app/src/main/kotlin/com/fastflow/vpn/NetworkStateMonitor.kt:145-150 | Refines and emits only the network that is the default |
| `NetworkMonitor.NetworkStateMonitor.OnDefaultLinkPropertiesChanged` | android/app/src/main/kotlin/com/fastflow/vpn/NetworkStateMonitor.kt:152-157 | Refines and emits only the network that is the default |
| `NetworkMonitor.NetworkStateMonitor.OnDefaultUnavailable` | android/app/src/main/kotlin/com/fastflow/vpn/NetworkStateMonitor.kt:163-163 | Clears the default |
| `NetworkMonitor.NetworkStateMonitor.ReplayTracked` | android/app/src/main/kotlin/com/fastflow/vpn/NetworkStateMonitor.kt:231-234 | The loop: forget what was sent, send again, for every tracked network |
| `Netif.InterfaceSurvivesTheBridge` | android/app/src/main/kotlin/com/fastflow/vpn/NetworkStateMonitor.kt:279-303 | End to end over the bridge, by value: the rebuilt interface has the link's name, the system's index for that name, the declared MTU (Android 10 on, if positive), else the system's, else 1500, the type, metered and constrained bits of the capabilities, the reported resolvers, and the reported addresses that parse |
| `Netif.AddressesGetThrough` | data/vpn_engine/platform_android.go:349-379 | The k-th address that gets through is a reported host up to its first percent sign, a slash, and a decimal text whose value is the prefix length; in order, and one is missing only if it had no text or does not parse |
| `Netif.ResolversGetThrough` | data/vpn_engine/platform_android.go:311-318 | The resolvers that get through are the reported ones with a text, in order, each up to its first percent sign |
| `Netif.FlagsSurviveTheBridge` | android/app/src/main/kotlin/com/fastflow/vpn/NetworkStateMonitor.kt:305-323 | Type, metered, constrained, validated and Bluetooth decode from the flag bits to what the capabilities said |
| `Netif.DefaultSurvivesTheBridge` | android/app/src/main/cpp/fastflow_jni.cpp:269-294 | The default payload arrives with name and index and nothing else, so an untracked default has no address and MTU 1500 |
| `Csv.RoundTrip` | data/vpn_engine/platform_android.go:367-379 | Comma-join then split, trim and drop-empty is the identity on every list of trimmed, non-empty, comma-free items |
| `Csv.ItemsPieceByPiece` | data/vpn_engine/platform_android.go:367-379 | Of any comma-free pieces, joined, exactly the trimmed ones that are not blank are read, piece by piece |
| `Csv.TrimExactly` | data/vpn_engine/platform_android.go:372-372 | Trimming takes all the spaces off both ends and nothing else |
| `Csv.SplitNonEmpty` | data/vpn_engine/platform_android.go:367-379 | The append loop computes the trimmed non-empty parts in order |
| `Csv.ParsePrefixes` | data/vpn_engine/platform_android.go:349-365 | The append loop computes the order-preserving subsequence of items that parse |
| `Csv.FilterKeepsOrder` | data/vpn_engine/platform_android.go:355-363 | Of two items that parse, the one sent first comes through first |
| `Csv.FilterSelects` | data/vpn_engine/platform_android.go:360-362 | An item comes through if and only if it was sent and parses |
| `Separated.JoinSplit` | data/vpn_engine/platform_android.go:371-371 | Splitting loses nothing: joining the parts gives back any text |
| `Separated.SplitJoin` | infrastructure/updates/github_updater_service.dart:94-97 | Parts without the separator are found again, all of them and in order, so a text has one list of parts |
| `EngineLifecycle.ReadersAreSafe` | data/vpn_engine/engine_controller.go:101-215 | At every atomic store of every run: running implies instance and cancel are set, error implies lastError is not empty |
| `EngineLifecycle.StatusFollowsTheGraph` | data/vpn_engine/engine_controller.go:112-192 | Every status change is an edge of a fixed graph in which running never goes straight to starting or stopped |
| `EngineLifecycle.StartWhileRunningChangesNothing` | data/vpn_engine/engine_controller.go:126-128 | A start while an instance is installed returns with the whole state unchanged |
| `EngineLifecycle.Conservation` | data/vpn_engine/engine_controller.go:131-215 | Whenever the lock is free: no box is asked to close twice; contexts created equal those cancelled plus the one held if and only if no panic came before installation; boxes created equal those asked to close plus the installed one, in number and each box for itself exactly once, if and only if no instance.Start() panicked |
| `EngineLifecycle.RunKeepsBoxes` | data/vpn_engine/engine_controller.go:150-210 | At every atomic step every box created is exactly one of open, local to the running start, lost, or asked to close |
| `EngineLifecycle.APanicLosesABox` | data/vpn_engine/engine_controller.go:118-124 | A concrete run: instance.Start() panics, and the box is neither installed nor ever closed, the context neither held nor cancelled |
| `EngineLifecycle.LossesAreEarlyPanics` | data/vpn_engine/engine_controller.go:118-124 | Contexts lost are exactly the panics before installation, boxes lost exactly the panics of instance.Start() |
| `EngineLifecycle.OneLivePoller` | data/vpn_engine/traffic.go:55-64 | In every interleaving at most one poller belongs to a context that is not cancelled |
| `EngineLifecycle.PollersGoRound` | data/vpn_engine/traffic.go:76-98 | A waiting poller puts what it reads on the meter at every tick; once its context is cancelled, and not before, it clears the meter and returns |
| `EngineLifecycle.MeterHasALivingWriter` | data/vpn_engine/traffic.go:76-98 | A value on the meter was stored by a poller that has not returned |
| `EngineLifecycle.MeterEndsEmpty` | data/vpn_engine/traffic.go:78-81 | Once every poller has returned normally the meter reads nothing |
| `EngineLifecycle.Engine.Start` | data/vpn_engine/engine_controller.go:112-180 | Success exactly when every call into the core succeeds, with the fields it leaves; every error return leaves status error, a message and nothing installed; each store is a step of the machine |
| `EngineLifecycle.Engine.Stop` | data/vpn_engine/engine_controller.go:182-192 | Ends stopped with nothing installed, the box asked to close and the context cancelled |
| `EngineLifecycle.Engine.ForceCleanupLocked` | data/vpn_engine/engine_controller.go:196-215 | Closes what is installed once, cancels what is held once |
| `EngineLifecycle.Engine.Recover` | data/vpn_engine/engine_controller.go:118-124 | The deferred recover: error state, engine-panic message, nothing left behind |
| `EngineLifecycle.Engine.FailWith` | data/vpn_engine/engine_controller.go:143-148 | An error return cancels its context and stores its message before its status |
| `EngineLifecycle.Engine.Build` | data/vpn_engine/engine_controller.go:142-159 | From a fresh context to a running engine, or the error return that fits the call that failed |
| `EngineLifecycle.Engine.StartTheBox` | data/vpn_engine/engine_controller.go:161-167 | A box that does not start is closed before its context is cancelled |
| `EngineLifecycle.Engine.Install` | data/vpn_engine/engine_controller.go:169-179 | Instance and cancel before the running status; a poller that panics undoes them |
| `Traffic.PollTraffic` | data/vpn_engine/traffic.go:66-98 | The tick loop stores the snapshots the specification gives, the first with rate 0 |
| `Traffic.ReadTotals` | data/vpn_engine/traffic.go:101-107 | The accumulating loop sums the metered outbounds in each direction |
| `Traffic.SnapshotByName` | data/vpn_engine/traffic.go:101-113 | By counter name: a tick stores proxy plus direct uplink as up and their downlink as down, each with the rate of its own totals |
| `Traffic.NeverShowsMoreThanGained` | data/vpn_engine/traffic.go:118-123 | Over any number of ticks the sum of rate times interval never exceeds the positive counter gains, whatever clock and counters do |
| `Traffic.FallsShortByLessThanAByteASecond` | data/vpn_engine/traffic.go:118-123 | With monotone counters it falls short by less than one byte for each second elapsed |
| `Traffic.ResetShowsNothing` | data/vpn_engine/traffic.go:115-121 | A counter reset shows as rate 0, never as a negative one |
| `Traffic.TickBounds` | data/vpn_engine/traffic.go:118-123 | One rate is never negative, never shows more than the gain, and rounds down by less than one byte per second |
| `PipeProtocol.AnswersAreOwn` | infrastructure/os_windows/daemon_ipc_client.dart:92-166 | In every run, for every size of reads on both ends, with timeouts, broken pipes, teardown and reconnection: a call that is answered gets exactly the line dispatch produced for its own request, although the id in the response is never looked at |
| `PipeProtocol.ACallIsAnswered` | infrastructure/os_windows/daemon_ipc_client.dart:248-284 | A call on a connection at rest, its request and its answer read in any chunks at all, completes with exactly the line the daemon produced, and the connection is at rest again |
| `PipeProtocol.UndisturbedCallsAreAnswered` | infrastructure/os_windows/daemon_ipc_client.dart:92-154 | In every run without broken pipe, failed write, teardown or timeout of that call: once the connection is idle the call has been answered with its own line |
| `PipeProtocol.NoCallIsForgotten` | infrastructure/os_windows/daemon_ipc_client.dart:248-284 | In every run, once the connection is idle every call ever issued has completed |
| `PipeProtocol.FailuresHaveCauses` | infrastructure/os_windows/daemon_ipc_client.dart:262-277 | In every run a write failure follows a failed write or a broken pipe, a closed pipe a failed read of a broken pipe, a timeout its timer, a disconnection a teardown |
| `PipeProtocol.EveryCallIsAccountedFor` | infrastructure/os_windows/daemon_ipc_client.dart:101-120 | Every call issued is still pending or has completed, never both |
| `PipeProtocol.BrokenPipesFailCalls` | infrastructure/os_windows/daemon_ipc_client.dart:258-277 | A pipe that breaks before the write fails the call as unwritten, one that breaks after it as closed, and the worker is ready again |
| `PipeProtocol.ConnectedExactly` | infrastructure/os_windows/daemon_ipc_client.dart:92-100 | In every run the client is connected exactly if it has connected and not torn down since; otherwise a call has no effect |
| `PipeProtocol.CompletesOnce` | infrastructure/os_windows/daemon_ipc_client.dart:131-154 | A completed call keeps its outcome through timeouts, late replies and teardown |
| `PipeProtocol.TeardownCompletesAll` | infrastructure/os_windows/daemon_ipc_client.dart:156-166 | Teardown leaves no call waiting |
| `PipeProtocol.StreamIsConserved` | infrastructure/os_windows/daemon_ipc_client.dart:269-283 | Delivered lines, buffered bytes and unread bytes together are always exactly what the daemon wrote |
| `PipeProtocol.DaemonIpcClient.Call` | infrastructure/os_windows/daemon_ipc_client.dart:92-111 | Fails without a connection; otherwise a fresh id is pending and its command is sent |
| `PipeProtocol.DaemonIpcClient.OnReply` | infrastructure/os_windows/daemon_ipc_client.dart:131-154 | Completes the named call if it is still pending, otherwise does nothing |
| `PipeProtocol.DaemonIpcClient.OnTimeout` | infrastructure/os_windows/daemon_ipc_client.dart:113-119 | Takes the call off the table with a timeout |
| `PipeProtocol.DaemonIpcClient.Teardown` | infrastructure/os_windows/daemon_ipc_client.dart:156-166 | The loop fails every pending call and empties the table |
| `PipeProtocol.ServesTheLastRequest` | windows_daemon/ipc.go:123-134 | The daemon only ever reads the last request the worker wrote, whole |
| `PipeProtocol.CutsTheAnswer` | infrastructure/os_windows/daemon_ipc_client.dart:269-283 | What the worker cuts is the answer to the request it waits for, and leaves every buffer empty |
| `LineFraming.PipeWorker.ReadReply` | infrastructure/os_windows/daemon_ipc_client.dart:269-283 | The read-and-cut loop returns the first line and keeps the rest, or reports a closed pipe with the buffer as it is |
| `LineFraming.ReadsTheFirstLine` | infrastructure/os_windows/daemon_ipc_client.dart:269-283 | Whatever the chunking, the line cut is the first line of the stream and nothing after it is lost |
| `LineFraming.EveryChunkingDelivers` | infrastructure/os_windows/daemon_ipc_client.dart:269-283 | Two chunkings of one stream deliver the same lines: those that were sent |
| `PipeServer.NoHandleIsLeaked` | windows_daemon/ipc.go:55-116 | In every interleaving of acceptLoop and stop each pipe instance is held by the loop, owned by a worker, or closed; at most twice, and twice only if stop took it from cur |
| `PipeServer.EverythingIsClosedInTheEnd` | windows_daemon/ipc.go:67-123 | Once the loop has returned and the clients are gone, every instance created is closed |
| `PipeServer.WorkersKeepTheirHandles` | windows_daemon/ipc.go:114-121 | No handle is closed under a running worker |
| `PipeServer.AtMostOneMoreClient` | windows_daemon/ipc.go:93-114 | After the critical section of stop at most one more client is served |
| `PipeServer.StoppedExactly` | windows_daemon/ipc.go:55-65 | In every run the server is stopped exactly if stop had its critical section, and stop is done exactly if it went on to close what it took |
| `PipeServer.AClientIsServed` | windows_daemon/ipc.go:74-115 | Until stop is called, a client whose image verifies gets a worker of its own, with its handle open, and the loop takes the next one |
| `PipeServer.FailuresCloseTheInstance` | windows_daemon/ipc.go:75-113 | A client that fails to connect or to verify costs exactly its instance, which is closed, and the loop takes the next; without an instance the loop ends |
| `PipeServer.LoopStarts` | windows_daemon/ipc.go:67-75 | The loop begins with the security descriptor, and a wait on a closed instance never connects |
| `PipeServer.StopUnblocksTheLoop` | windows_daemon/ipc.go:61-64 | When stop is done the loop does not wait on an instance that is still open |
| `PipeServer.LoopReturns` | windows_daemon/ipc.go:74-116 | From the critical section of stop on, the loop returns within four of its own steps, whatever stop and the workers do in between |
| `PipeServer.PipeServer.Stop` | windows_daemon/ipc.go:55-65 | New shared state and the handle it closes |
| `PipeServer.PipeServer.Publish` | windows_daemon/ipc.go:82-89 | Publishes the instance, or closes it and ends the loop when stopped |
| `PipeServer.PipeServer.Wake` | windows_daemon/ipc.go:93-105 | Withdraws the instance; goes on to verification exactly when not stopped and connected, otherwise closes it |
| `PipeServer.OnlyVerifiedClientsAreServed` | windows_daemon/ipc.go:107-116 | In every run a client is handed to a worker only when the check of its image has just succeeded |
| `HelperDaemon.KillSwitchRequestSetsTheBlock` | windows_daemon/ipc.go:156-163 | The client's setKillSwitch(on), with the token and whatever path it names: answered ok exactly when its netsh runs succeed, and then the firewall blocks exactly if on, the verified image and the loopback are let through, and routes are as they were |
| `HelperDaemon.OnlyTheVerifiedImageExactly` | windows_daemon/firewall.go:22-37 | After switching on, the verified image is the only engine let through, exactly if no other was before |
| `HelperDaemon.ARefusedBlockMayBlock` | windows_daemon/firewall.go:22-37 | A refused switch-on leaves the machine blocked exactly if the policy was set before the failure, or already |
| `HelperDaemon.AddRouteRequest` | windows_daemon/routing.go:16-26 | The client's addRoute puts that network with that gateway in the table, exactly if both parse and the tool runs; otherwise nothing changes |
| `HelperDaemon.RemoveRouteRequest` | windows_daemon/routing.go:28-34 | The client's removeRoute takes every route to that network out and nothing else, exactly if it parses and the tool runs |
| `HelperDaemon.RemoveUndoesAddExactly` | windows_daemon/routing.go:16-34 | Adding and removing a route restores the table, if and only if it held no route to that network before |
| `HelperDaemon.NothingElseActs` | windows_daemon/ipc.go:144-176 | A wrong token, a ping or an unknown method changes neither firewall nor routes, and is answered so |
| `HelperDaemon.Helper.EnableKillSwitch` | windows_daemon/firewall.go:22-37 | Policy, engine rule, loopback rule in this order, up to the first failure |
| `HelperDaemon.Helper.DisableKillSwitch` | windows_daemon/firewall.go:41-50 | Lifts the policy or fails; rules that cannot be deleted are left silently |
| `HelperDaemon.Helper.InstallRoute` | windows_daemon/routing.go:16-26 | Validates both texts before the tool runs |
| `HelperDaemon.Helper.DeleteRoute` | windows_daemon/routing.go:28-34 | Validates the network before the tool runs |
| `HelperDaemon.Helper.Dispatch` | windows_daemon/ipc.go:144-184 | Answer and new system are those the request lemmas speak of |
| `HelperDaemon.Helper.ServeLine` | windows_daemon/ipc.go:124-135 | A decoded line is dispatched, with its effect; any other is answered invalid json and changes nothing |
| `RouteConfig.RouteMeansPolicy` | data/vpn_engine/config_builder/routing_builder.dart:11-40 | For every setting, packet, ad set and clash mode, first-match evaluation of the compiled rules equals the direct decision function |
| `RouteConfig.DisabledIpv6NeverLeaves` | data/vpn_engine/config_builder/routing_builder.dart:16-22 | With IPv6 disabled every v6 packet is blocked, except DNS, which is answered, in any clash mode and with LAN bypass on |
| `RouteConfig.GlobalRuleIsRedundant` | data/vpn_engine/config_builder/routing_builder.dart:32-39 | Without the Global rule every packet goes where it went |
| `RouteConfig.RouteIsClosed` | data/vpn_engine/config_builder/routing_builder.dart:11-57 | Every outbound, rule set and download detour the route refers to is one the config defines |
| `DnsConfig.DnsMeansPolicy` | data/vpn_engine/config_builder/dns_builder.dart:26-57 | For every profile, setting, query, ad set and clash mode the compiled DNS rules pick the server the policy names |
| `DnsConfig.IsDomainExactly` | data/vpn_engine/config_builder/dns_builder.dart:72-78 | A server address counts as a host name exactly if it is not empty, has no colon, and is not four groups of one to three digits joined by dots |
| `DnsConfig.ProxyHostGoesDirect` | data/vpn_engine/config_builder/dns_builder.dart:27-32 | The proxy server's own host name always goes to the direct server, never to remote or fakeip |
| `DnsConfig.EveryQueryHasAServer` | data/vpn_engine/config_builder/dns_builder.dart:12-57 | Every query is sent to a server the section defines |
| `DnsConfig.DnsIsClosed` | data/vpn_engine/config_builder/dns_builder.dart:5-45 | Servers, resolvers and detours that are referred to exist, and the ad rule set is the one the route section defines |
| `DnsConfig.ChainsAreShort` | data/vpn_engine/config_builder/dns_builder.dart:13-21 | Resolver, detour, host-name and rule-set dependencies have a falling rank: no chain is longer than seven, so resolution terminates |
| `DnsConfig.BootstrapIsWellFounded` | data/vpn_engine/config_builder/dns_builder.dart:13-21 | Every server, outbound, lookup and rule set can be brought up if and only if the direct resolver's address contains no host name |
| `DnsConfig.ANamedDirectResolverFails` | data/vpn_engine/config_builder/dns_builder.dart:21-21 | A concrete address for which it cannot |
| `DnsConfig.AdRulesAreIndependentExactly` | data/vpn_engine/config_builder/routing_builder.dart:45-57 | The download of the ad rules does without the tunnel if and only if the lookup of its host is not sent to the remote server |
| `DnsConfig.AdRulesWaitForTheTunnel` | data/vpn_engine/config_builder/routing_builder.dart:45-57 | In rule mode without fake DNS the download waits for the tunnel |
| `ConfigReading.RouteReadsBack` | data/vpn_engine/config_builder/routing_builder.dart:37-59 | Any route section written as JSON reads back as itself |
| `ConfigReading.DnsReadsBack` | data/vpn_engine/config_builder/dns_builder.dart:51-65 | The DNS section written as JSON reads back as itself |
| `ConfigReading.EmittedConfigMeansThePolicies` | data/vpn_engine/config_builder/sing_box_config_builder.dart:18-34 | Every config the builder emits, read back from its JSON, routes and resolves as the two policies say |
| `EmittedConfig.PacketsLeaveAsDecided` | data/vpn_engine/config_builder/routing_builder.dart:11-40 | Of the emitted JSON: the rules, read back and evaluated, name a tag, and the emitted outbound of that tag is of type dns, block, direct or the profile's protocol, as the settings and the packet decide |
| `EmittedConfig.QueriesGoAsDecided` | data/vpn_engine/config_builder/dns_builder.dart:12-57 | Of the emitted JSON: the DNS rules name a server, and the emitted server of that tag has the address and the outbound that settings, host name and query decide |
| `EmittedConfig.OutboundsAreWhatTheirTagsSay` | data/vpn_engine/config_builder/outbound_builder.dart:19-33 | Each tag other sections refer to is emitted, once, and its outbound is of the type the tag says; the proxy dials the profile's server |
| `EmittedConfig.ListensExactly` | data/vpn_engine/config_builder/inbound_builder.dart:32-123 | With a session from the factory, something accepts connections at an address and port if and only if it is the system proxy on loopback at its drawn port, or the enabled local proxy with credentials, on all addresses only in LAN mode, at its pinned port if there is one |
| `EmittedConfig.BuildFailsExactly` | data/vpn_engine/config_builder/inbound_builder.dart:79-111 | When a config cannot be built, for which of the two reasons, and which is said first |
| `EmittedConfig.InboundsExactly` | data/vpn_engine/config_builder/inbound_builder.dart:32-123 | The emitted inbounds are the tunnel or the system proxy, then the local proxy exactly if its session has a port, by type and tag |
| `EmittedConfig.TheRestFits` | data/vpn_engine/config_builder/routing_builder.dart:37-43 | Every emitted route follows the default interface, and the cache file keeps fake addresses |
| `EmittedConfig.TheTunTakesIpv6` | data/vpn_engine/config_builder/inbound_builder.dart:44-67 | The tunnel interface always has its IPv6 address and routes; with IPv6 disabled every v6 packet but DNS ends in an outbound of type block |
| `EmittedConfig.EmittedDnsFits` | data/vpn_engine/config_builder/dns_builder.dart:47-67 | The emitted strategy is the explicit one or the one of the IPv6 mode; fake addresses exist exactly when enabled, v6 ones only with IPv6 |
| `EmittedConfig.DebugApiExactly` | data/vpn_engine/inbound_session.dart:78-81 | The debug API is there exactly if turned on, on loopback at the drawn port, behind the drawn secret |
| `EmittedConfig.TheMeterIsFed` | data/vpn_engine/traffic.go:44-47 | The core counts exactly the outbounds the meter sums, both are emitted, and the statistics service listens nowhere |
| `EmittedConfig.AdRulesAreFetchedDirectly` | data/vpn_engine/config_builder/routing_builder.dart:45-57 | The ad rule set is there exactly if asked for, and is fetched from its host through an outbound of type direct |
| `ConfigBuilder.EveryListenerIsJustified` | data/vpn_engine/config_builder/inbound_builder.dart:8-42 | With a session from the factory the build never throws; a proxy inbound exists only for system-proxy mode (on loopback) or the enabled local proxy (authenticated), and only LAN mode listens beyond loopback |
| `ConfigBuilder.LocalProxyIsGuarded` | data/vpn_engine/config_builder/inbound_builder.dart:102-123 | The local proxy demands the user's non-empty credentials |
| `ConfigBuilder.ExportHidesSecrets` | data/vpn_engine/config_builder/sing_box_config_builder.dart:53-63 | Non-interference: changing only the local-proxy password and the clash secret leaves the exported config or error the same, if and only if the change does not decide whether an allocated local proxy may listen (or the build fails first for lack of a system-proxy port) |
| `ConfigBuilder.ExportShowsTheOutbound` | data/vpn_engine/config_builder/sing_box_config_builder.dart:118-140 | The proxy outbound is exported unredacted |
| `ConfigBuilder.BuildPretty` | data/vpn_engine/config_builder/sing_box_config_builder.dart:53-63 | Builds, redacts in place on request, or passes the error on |
| `ConfigRedaction.RedactionIsExact` | data/vpn_engine/config_builder/sing_box_config_builder.dart:118-140 | At every path of every config: a secret that is there becomes the placeholder, none is made up, and any path that meets no secret keeps its scalar, list length or key set |
| `ConfigRedaction.SecretsAreReached` | data/vpn_engine/config_builder/sing_box_config_builder.dart:122-139 | The password of every user of every inbound and the clash secret are secrets, and the path of a password leads to it |
| `ConfigRedaction.RedactionByField` | data/vpn_engine/config_builder/sing_box_config_builder.dart:118-140 | Field by field: other sections are untouched, each inbound is redacted in place, and of the experimental section only the clash API |
| `ConfigRedaction.InboundAfter` | data/vpn_engine/config_builder/sing_box_config_builder.dart:122-132 | An inbound keeps every field but its users, and those in number and order |
| `ConfigRedaction.UserAfter` | data/vpn_engine/config_builder/sing_box_config_builder.dart:126-128 | A user loses the password, if there is one, to the placeholder, and nothing else |
| `ConfigRedaction.ClashAfter` | data/vpn_engine/config_builder/sing_box_config_builder.dart:133-139 | The clash API loses its secret, if there is one, to the placeholder, and nothing else |
| `ConfigRedaction.RedactingTwice` | data/vpn_engine/config_builder/sing_box_config_builder.dart:118-140 | Redaction is idempotent, on every value |
| `ConfigRedaction.ConfigMap.RedactInPlace` | data/vpn_engine/config_builder/sing_box_config_builder.dart:120-140 | The in-place loops compute that redaction |
| `ConfigRedaction.RedactInbounds` | data/vpn_engine/config_builder/sing_box_config_builder.dart:122-132 | The loop over inbounds blanks the users of each |
| `ConfigRedaction.RedactUsers` | data/vpn_engine/config_builder/sing_box_config_builder.dart:126-128 | The loop over users blanks exactly the passwords that are there |
| `ConfigRedaction.RedactExperimental` | data/vpn_engine/config_builder/sing_box_config_builder.dart:133-139 | Blanks the clash secret if it is there |
| `UseCases.Connection.ExecuteStart` | core/use_cases/connection/start_vpn_usecase.dart:31-84 | The effects of a start in order, exactly when it succeeds, and that a failure leaves the engine alone |
| `UseCases.Connection.StartEngine` | core/use_cases/connection/start_vpn_usecase.dart:60-83 | Start, rollback on refusal, then proxy and kill switch |
| `UseCases.Connection.ExecuteStop` | core/use_cases/connection/stop_vpn_usecase.dart:16-21 | The effects of the four calls in order, up to the first that throws |
| `UseCases.Connection.EstablishTun` | android/app/src/main/kotlin/com/fastflow/vpn/FastFlowVpnService.kt:77-118 | Android: the old interface goes, and a new one is built with the flag as it stands |
| `UseCases.Connection.Perform` | android/app/src/main/kotlin/com/fastflow/vpn/FastFlowVpnService.kt:120-123 | Each effect as the platform has it |
| `UseCases.Connection.ExecuteToggle` | core/use_cases/connection/toggle_kill_switch.dart:16-24 | Saves first, then applies or removes the block only while connected |
| `UseCases.Connection.Step` | core/use_cases/connection/toggle_kill_switch.dart:16-24 | Every use case takes the object's state where the run specification says |
| `UseCases.Connection.OnceRunning` | core/use_cases/connection/start_vpn_usecase.dart:66-82 | The steps after a running engine, up to the first call that throws |
| `KillSwitch.ProtectedUnlessALapse` | core/use_cases/connection/start_vpn_usecase.dart:77-80 | On both platforms, in every non-overlapping run of start, stop, toggle, engine death and process death, with calls that may return or throw with or without their effect: a connected engine with the preference saved has the block after every step, if and only if no step lapses. Windows: the blocking call was not reached or did nothing. Android: the flag was not set before the interface was built, or a second start dropped the interface |
| `KillSwitch.StepKeepsProtection` | core/use_cases/connection/toggle_kill_switch.dart:16-24 | The same for one step from any protected world |
| `KillSwitch.CallsThatReturnProtect` | infrastructure/os_windows/windows_route_manager.dart:34-57 | On Windows a run in which nothing on the way to the block throws keeps every connection protected, provided no setKillSwitch call can return with nothing done |
| `KillSwitch.DaemonProtects` | infrastructure/os_windows/windows_route_manager.dart:35-41 | In particular when the process is not elevated and the daemon connects, which can be checked before the call |
| `KillSwitch.NothingDoneExactly` | infrastructure/os_windows/windows_route_manager.dart:34-66 | A setKillSwitch call can return with nothing done exactly when there is neither elevation nor a daemon, or when netsh runs and fails |
| `KillSwitch.NoHelperLeavesItUnprotected` | infrastructure/os_windows/windows_route_manager.dart:35-41 | A concrete run on Windows in which every call returns and the connection is not protected: no elevation, no daemon |
| `KillSwitch.AThrowLeavesItUnprotected` | core/use_cases/connection/start_vpn_usecase.dart:77-80 | A concrete run on Windows in which the daemon refuses, the call throws and the engine runs on unprotected |
| `KillSwitch.AndroidProtectsExactly` | android/app/src/main/kotlin/com/fastflow/vpn/FastFlowVpnService.kt:92-123 | On Android a connection wanted protected is protected exactly if the flag was set before its interface was built |
| `KillSwitch.AndroidReconnectIsUnprotected` | android/app/src/main/kotlin/com/fastflow/vpn/FastFlowVpnService.kt:120-123 | So the connection made after a clean disconnect, or in a new process, never is |
| `KillSwitch.AndroidFirstConnectionIsUnprotected` | core/use_cases/connection/start_vpn_usecase.dart:40-80 | A concrete run on Android: switched on, connected, every call returning, and no block |
| `KillSwitch.BlockFallsOnlySafely` | core/use_cases/connection/stop_vpn_usecase.dart:16-21 | At every moment inside every step: the block falls only after a stop has brought the engine down or by switching the preference off; on Android also when a start replaces the interface or the process ends, on Windows never otherwise |
| `KillSwitch.BlockStaysUnlessDropped` | core/use_cases/connection/stop_vpn_usecase.dart:7-9 | Until the user stops or switches off, a block in force stays through a run, if and only if no step drops it; only Android has such steps |
| `KillSwitch.AndroidLosesTheBlock` | android/app/src/main/kotlin/com/fastflow/vpn/FastFlowVpnService.kt:66-74 | A concrete run on Android: started again without a stop, the connection is blocked; the end of the process takes the block away |
| `KillSwitch.WindowsBlockOutlivesTheEngine` | core/use_cases/connection/stop_vpn_usecase.dart:7-9 | On Windows it survives engine and process deaths, failed starts and reconnects |
| `KillSwitch.StopClearsExactly` | core/use_cases/connection/stop_vpn_usecase.dart:16-21 | A stop whose calls return leaves no engine, proxy, block, flag or interface behind, exactly if every call that had something to clear took effect |
| `KillSwitch.RunFits` | core/use_cases/connection/start_vpn_usecase.dart:31-84 | Every reachable world fits its platform: no Android interface or flag on Windows, no system proxy on Android |
| `KillSwitch.TunnelLostExactly` | android/app/src/main/kotlin/com/fastflow/vpn/FastFlowVpnService.kt:77-118 | A step keeps the interface under a running engine, if and only if it is not a second start on Android that reaches the service: that start replaces the interface, whether or not it rolls back; the adapter the Windows core owns is never touched |
| `KillSwitch.SecondStartLosesTheTunnel` | core/use_cases/connection/start_vpn_usecase.dart:42-64 | A concrete run: connecting twice on Android leaves the first engine running without its interface |
| `KillSwitch.StartOnWindows` | core/use_cases/connection/start_vpn_usecase.dart:31-84 | Where a start leaves a Windows world, for every way its calls end |
| `KillSwitch.StartOnAndroid` | core/use_cases/connection/start_vpn_usecase.dart:31-84 | Where a start leaves an Android world, for every way its calls end |
| `KillSwitch.SystemProxyIsSet` | core/use_cases/connection/start_vpn_usecase.dart:66-75 | A system-proxy start that succeeds on Windows, with an endpoint and an effective proxy call, leaves the proxy on |
| `KillSwitch.StopLeaves` | core/use_cases/connection/stop_vpn_usecase.dart:16-21 | Where a stop leaves the world, for every way its calls end |
| `KillSwitch.ToggleLeaves` | core/use_cases/connection/toggle_kill_switch.dart:16-24 | Where a toggle leaves the world, for every way its calls end |
| `Versions.IsNewer` | infrastructure/updates/github_updater_service.dart:101-109 | The indexed loop answers whether the first difference, missing segments counting 0, favours the candidate |
| `Versions.IsNewerVersion` | infrastructure/updates/github_updater_service.dart:93-110 | The same after parsing both version strings |
| `Versions.ComparesTheNumbers` | infrastructure/updates/github_updater_service.dart:93-110 | On any dot-joined segment texts, with or without suffixes, the method compares the lists of their numbers: newer exactly if at some place the number is larger and all before are equal, missing places counting 0 |
| `Versions.ParsesEverySegment` | infrastructure/updates/github_updater_service.dart:94-98 | Every segment is parsed in its place, one that is no number as 0 |
| `Versions.Transitive` | infrastructure/updates/github_updater_service.dart:101-109 | The order is transitive |
| `Versions.Asymmetric` | infrastructure/updates/github_updater_service.dart:101-109 | Two versions are never both newer than the other |
| `Versions.TiesAreEqualUpToZeros` | infrastructure/updates/github_updater_service.dart:101-109 | Neither is newer exactly when the two are equal up to trailing zeros: the order is a strict weak order |
| `Versions.NewerIsLexicographic` | infrastructure/updates/github_updater_service.dart:101-109 | The loop decides lexicographic order up to trailing zeros, exactly unless one version continues the other with a negative segment (a hexadecimal segment can wrap) |
| `Versions.APrefixIsNewer` | infrastructure/updates/github_updater_service.dart:101-109 | A concrete pair for which it is not lexicographic: 1 is newer than 1.0xFFFFFFFFFFFFFFFF |
| `Versions.AMalformedTagNags` | infrastructure/updates/github_updater_service.dart:90-98 | A concrete malformed tag that is an update |
| `Versions.SuffixIsIgnored` | infrastructure/updates/github_updater_service.dart:90-98 | A pre-release or build suffix does not change the parsed version |
| `Versions.MalformedTagIsNewerExactly` | infrastructure/updates/github_updater_service.dart:91-92 | A tag without numbers is newer exactly when the running version's first non-zero segment is negative |

## Left out

- NetifSystem.AgreementFromFirstReplay: one monitor at a time; a stopped monitor's cleanup never overlaps the next monitor, as the threading contract at data/vpn_engine/netif_bridge.h:19-23 promises, so two live handler threads are not modelled.
- NetworkMonitor.NetworkStateMonitor.EmitIfComplete: exceptions thrown inside a monitor task are not modelled; the catch in `post` swallows them, and here a task always runs to its end.
- JniShim.Shim.NetifUpdate: no out-of-memory drops while pinning Java strings, no JNI attach and detach, no dlopen details; `protect` and the stored C function pointers are not modelled beyond the bound flag.
- EngineLifecycle.Conservation: counts the requests to close a box; whether Close ever finishes, or panics in its goroutine, is not modelled.
- EngineLifecycle.Engine.Start: what the text of an error says beyond which call failed is not modelled, and sing-box itself is a set of outcomes.
- Traffic.PollTraffic: floating-point rounding of the division and 64-bit overflow of byte totals are not modelled; the reflection that reads counters is a parameter.
- PipeProtocol.AnswersAreOwn: a broken pipe stays broken for its connection; malformed UTF-8, the meaning of a response beyond being one line, and the worker's `close` message are not modelled.
- PipeServer.NoHandleIsLeaked: pipe creation and peer verification are parameters.
- HelperDaemon.KillSwitchRequestSetsTheBlock: a netsh or route run that fails is taken to have changed nothing; the parsing of networks and gateways, the comparison of tokens in constant time, and rules other programs add are not modelled. route.exe is given only the network address to delete, so removing takes every route to it.
- ConfigRedaction.ConfigMap.RedactInPlace: aliasing inside the config map is not modelled; redaction rewrites values and writes them back, since every map in it was just built.
- ConfigReading.EmittedConfigMeansThePolicies: JSON is compared as values, not as text; how the core matches domain names beyond equality, and what a rule set contains, are parameters.
- KillSwitch.ProtectedUnlessALapse: use cases do not overlap, and settings change only through the toggle. On Android the block is the mode the interface was built with, as FastFlowVpnService.kt:97 describes it; what the framework makes of that mode, always-on lockdown, the asynchronous delivery of service intents, and onRevoke are not modelled. On Windows it is the outbound policy; the allow rules beside it are not.
- KillSwitch.TunnelLostExactly: an interface is its number; the file descriptor itself, and who closes it, are not modelled.
- DnsConfig.AdRulesAreIndependentExactly: every lookup is taken by first match; whether the core skips fake-IP servers for its own lookups is not part of this model.
- Versions.IsNewerVersion: parsing one segment is a parameter; `stripTagPrefix`, the HTTP request and the release payload are not modelled.
- EmittedConfig.OutboundsAreWhatTheirTagsSay: of the proxy outbound only type, tag and server are modelled; its keys, TLS, transport and multiplexing are one opaque map of the profile, and the selector group is not built.
- Integer widths of handles, indices and counters; only the dropped-downcall counter wraps, at 32 bits.
- User interface, repositories, localisation, services, boot receiver, Wi-Fi providers and link parsing: no hard state.
