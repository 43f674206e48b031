# Bettbox Android VPN session lifecycle, in Dafny

This project models the Android side of Bettbox, a Flutter proxy client. It covers the part that owns a VPN session:

- the process-wide run state (START / PENDING / STOP) and its 1000 ms toggle debounce;
- the background ("service") Flutter engine that is created and destroyed around a session;
- the VPN plugin, which:
  - binds the tunnel or the plain foreground service and starts or stops the session;
  - pauses and resumes it ("smart stop");
  - forces reconnects when the network type changes ("quick response", at most two per 5000 ms window);
  - keeps the foreground notification up to date and attributes connections to apps;
- the two foreground services: how the tunnel service configures `VpnService.Builder` for a set of options, and the notification both services show;
- the launch-activity choice of the notification;
- the unified logger;
- the quick-settings tile.

Each handler is taken to run atomically, as the app's run lock makes it. Calls into code outside the model are appended to a ghost trace, `GlobalState.trace`. These are Core.startTun/stopTun, binding, the suspend module, the UI's method channel and the package manager. This lets contracts say what was called, in which order and how often.

Inputs the app gets from the platform are parameters of the model:

- the clock (`now`);
- what `establish()` returns, which builder arguments the platform refuses, and the installed packages (`TunnelConfig.TunPlatform`);
- the UI's notification parameters, or their absence on timeout (`fetched`);
- each network's DNS servers (`dnsOf`) and link addresses (`links`);
- the active network's transports;
- `getConnectionOwnerUid` and `getPackagesForUid` answers;
- the foreground service types the platform refuses;
- the component-setting lookups.

Modules:

- `Lifecycle` (lifecycle.dfy): run states, service variants, traced effects.
- `Global` (global_state.dfy): `GlobalState.kt`.
- `Vpn` (vpn_plugin.dfy): the `VpnPlugin` object.
- `VpnPolicy` (vpn_policy.dfy): the value-level decisions the plugin takes.
- `TunnelConfig` (tunnel_config.dfy): `BettboxVpnService.start`.
- `VpnService` (bettbox_vpn_service.dfy) and `PlainService` (bettbox_service.dfy): the two services.
- `ServiceBase` (service_base.dfy): `BaseServiceInterface.kt`, plus the text and foreground-type logic both services share.
- `Logging` (log_utils.dfy): `LogUtils.kt`.
- `Tile` (tile_service.dfy): the quick-settings tile.
- `Models` (models.dfy): the option records the Android side reads.
- `Sequences` (sequences.dfy): first occurrences in a list, used for `List.minus` and the DNS order.
- `Wrappers` (wrappers.dfy): `Option`.

## Behaviour of the code worth knowing

The model follows the code. Where the code differs from what its comments and names suggest, the model states what the code does:

- `VpnPlugin.handleStop` and `handleSmartStop` go from START to STOP directly, and `handleSmartResume` goes from STOP to START directly. Only `GlobalState` passes through PENDING.
- The toggle debounce measures from the last HONOURED request, not the last request. Requests at 1000, 1600 and 2200 ms honour the first and the third (`Global.ChainedRequestsAreNotAllDropped`).
- The 5 s safety timer checks only that the state is still PENDING. A timer armed by an earlier start can reset a later start that is still pending (`Vpn.VpnPlugin.SafetyTimerFired`).
- The plain service's `start` returns 0, and `handleStartService` treats 0 as failure. So starting the plain variant always ends in STOP (`Vpn.PlainServiceStartStops`).
- Smart resume starts the TUN with `fd ?: 0` and no zero check, so with the plain service it starts the TUN with descriptor 0 (`Vpn.SmartResumeSkipsFdCheck`). When `start` throws there, the state is already START and no TUN runs.
- The limiter allows two forced stops per window, but the first forced stop leaves the session at STOP. Later type changes are then skipped by the START check, so in practice one stop happens per session.
- `unbindService` does not reset `isBind`; only a lost connection (`onServiceDisconnected`) does. So a bind while still connected always unbinds first.
- `GlobalState.handleStop` from START or PENDING sets PENDING. Without a tile plugin nothing else happens, and the state stays PENDING.
- `handleStart(skipDebounce = true)` always returns true, so the stop fallback in `handleToggle` is unreachable. It is an `assert false` in `Global.GlobalState.HandleToggle`.
- `LogUtils.kt` declares `e(module, throwable, message)` twice with the same signature. The model has it once (`Logging.LogUtils.LogThrowable`).

## Model

| member | source | states |
|---|---|---|
| Global.NewServiceEngine | android/app/src/main/kotlin/com/appshub/bettbox/GlobalState.kt:212-227 | the service engine carries the VPN, app and tile plugins, and its entrypoint gets `["quick"]` exactly when no UI engine exists |
| Global.LookupPlugin | android/app/src/main/kotlin/com/appshub/bettbox/GlobalState.kt:97-102 | the plugin is found in the UI engine whenever that engine exists (even if it lacks the plugin); the service engine is consulted only without a UI engine |
| Global.Honoured | android/app/src/main/kotlin/com/appshub/bettbox/GlobalState.kt:172-183 | one answer per request, the first honoured iff a full interval passed since `lastToggleAt`; `Global.HonouredIsDebounced` characterises all of them |
| Global.HonouredIsDebounced | android/app/src/main/kotlin/com/appshub/bettbox/GlobalState.kt:172-183 | the replay's answers are exactly the one series in which each request is honoured iff it comes at least 1000 ms after the latest honoured request before it (or the initial slot time) |
| Global.BurstAfterHonouredIsDropped | android/app/src/main/kotlin/com/appshub/bettbox/GlobalState.kt:172-183 | every request within 1000 ms after an honoured one is dropped |
| Global.ChainedRequestsAreNotAllDropped | android/app/src/main/kotlin/com/appshub/bettbox/GlobalState.kt:172-183 | requests 600 ms apart: the first and third are honoured, because the reference time moves only on success |
| Global.GlobalState.constructor | android/app/src/main/kotlin/com/appshub/bettbox/GlobalState.kt:38-67 | the process starts at STOP with no engines, not smart-stopped, last toggle at 0 |
| Global.GlobalState.UpdateRunState | android/app/src/main/kotlin/com/appshub/bettbox/GlobalState.kt:48-61 | the current state and the published observable both become the new state, and the change is published once |
| Global.GlobalState.AcquireToggleSlot | android/app/src/main/kotlin/com/appshub/bettbox/GlobalState.kt:172-183 | succeeds iff at least 1000 ms passed since the last success; only a success moves `lastToggleAt` |
| Global.GlobalState.SetFlutterEngine | android/app/src/main/kotlin/com/appshub/bettbox/GlobalState.kt:62 | the UI engine slot takes the given engine |
| Global.GlobalState.StopViaTilePlugin | android/app/src/main/kotlin/com/appshub/bettbox/GlobalState.kt:162 | the tile plugin's stop is called exactly when a tile plugin is found |
| Global.GlobalState.HandleToggle | android/app/src/main/kotlin/com/appshub/bettbox/GlobalState.kt:110-121 | a debounced toggle changes nothing; otherwise PENDING is published and the start is delegated; the stop fallback is unreachable |
| Global.GlobalState.HandleStart | android/app/src/main/kotlin/com/appshub/bettbox/GlobalState.kt:123-148 | false and no change iff debounced; otherwise PENDING even from START, then the tile plugin's start or the service engine's creation, and true |
| Global.GlobalState.HandleStop | android/app/src/main/kotlin/com/appshub/bettbox/GlobalState.kt:150-170 | debounced or at STOP: state untouched (the slot is still consumed at STOP); otherwise PENDING and the tile plugin's stop |
| Global.GlobalState.HandleTryDestroy | android/app/src/main/kotlin/com/appshub/bettbox/GlobalState.kt:185-191 | the service engine is destroyed exactly when no UI engine exists |
| Global.GlobalState.DestroyServiceEngine | android/app/src/main/kotlin/com/appshub/bettbox/GlobalState.kt:193-200 | the service engine is gone afterwards, and destroyed once if it existed |
| Global.GlobalState.InitServiceEngine | android/app/src/main/kotlin/com/appshub/bettbox/GlobalState.kt:202-230 | an existing service engine is kept and nothing is called; otherwise exactly one new engine is created |
| Global.GlobalState.SyncStatus | android/app/src/main/kotlin/com/appshub/bettbox/GlobalState.kt:76-91 | the UI is asked for the status |
| Global.GlobalState.OnStatusSynced | android/app/src/main/kotlin/com/appshub/bettbox/GlobalState.kt:79-89 | the state becomes START only for a true answer; no answer or a failure gives STOP; the published value follows it |
| Vpn.VariantFor | android/app/src/main/kotlin/com/appshub/bettbox/plugins/VpnPlugin.kt:691-700 | the tunnel service is chosen iff options exist and enable the tunnel |
| Vpn.StartServiceOutcome | android/app/src/main/kotlin/com/appshub/bettbox/plugins/VpnPlugin.kt:471-531 | START is reached iff a service is bound, options exist and the service gives a non-zero descriptor; the TUN is started with that descriptor and never otherwise |
| Vpn.PlainServiceStartStops | android/app/src/main/kotlin/com/appshub/bettbox/plugins/VpnPlugin.kt:497-502 | with the plain service bound, START is published and immediately replaced by STOP, and no TUN starts |
| Vpn.StopOrder | android/app/src/main/kotlin/com/appshub/bettbox/plugins/VpnPlugin.kt:561-592 | the TUN is stopped before the bound service, and each exactly once |
| Vpn.SmartResumeSkipsFdCheck | android/app/src/main/kotlin/com/appshub/bettbox/plugins/VpnPlugin.kt:655-663 | smart resume with the plain service starts the TUN with descriptor 0, which a normal start refuses |
| Vpn.DnsLists | android/app/src/main/kotlin/com/appshub/bettbox/plugins/VpnPlugin.kt:274-276 | each network contributes the servers the platform resolves for it, none when it has no answer |
| Vpn.Without | android/app/src/main/kotlin/com/appshub/bettbox/plugins/VpnPlugin.kt:295 | removing a network keeps exactly the other networks |
| Vpn.WithoutKeepsDistinct | android/app/src/main/kotlin/com/appshub/bettbox/plugins/VpnPlugin.kt:271 | the tracked networks stay a set (no repetitions) under removal |
| Vpn.VpnPlugin.constructor | android/app/src/main/kotlin/com/appshub/bettbox/plugins/VpnPlugin.kt:43-59 | no service, no options, unbound, empty cache and network set, quick response off, counters at 0 |
| Vpn.VpnPlugin.BindService | android/app/src/main/kotlin/com/appshub/bettbox/plugins/VpnPlugin.kt:685-703 | an earlier binding is released first, then the variant the options call for is bound |
| Vpn.VpnPlugin.OnServiceConnected | android/app/src/main/kotlin/com/appshub/bettbox/plugins/VpnPlugin.kt:66-81 | the plugin is bound to the service and starts it; the whole new plugin and global state |
| Vpn.VpnPlugin.OnServiceDisconnected | android/app/src/main/kotlin/com/appshub/bettbox/plugins/VpnPlugin.kt:83-87 | the service is forgotten and the plugin is unbound; nothing else changes |
| Vpn.VpnPlugin.OnAttachedToEngine | android/app/src/main/kotlin/com/appshub/bettbox/plugins/VpnPlugin.kt:90-111 | the network set restarts empty; the service is bound again exactly when the state is START, no service is bound and options are known |
| Vpn.VpnPlugin.OnDetachedFromEngine | android/app/src/main/kotlin/com/appshub/bettbox/plugins/VpnPlugin.kt:113-117 | the network set empties and the UI is sent an empty DNS list |
| Vpn.VpnPlugin.HandleStart | android/app/src/main/kotlin/com/appshub/bettbox/plugins/VpnPlugin.kt:218-238 | DNS servers are published; options are replaced; the bound service is dropped iff the variant changes; the tunnel path or the service start runs; the answer is always true |
| Vpn.VpnPlugin.ApplyOptions | android/app/src/main/kotlin/com/appshub/bettbox/plugins/VpnPlugin.kt:221-236 | the bound service is forgotten iff there were no options or the mode changed; the options are stored; the tunnel path or the service start follows |
| Vpn.VpnPlugin.StartBoundService | android/app/src/main/kotlin/com/appshub/bettbox/plugins/VpnPlugin.kt:490-530 | START is published and parameters cleared; a usable descriptor starts the TUN and installs the suspend module when asked, otherwise STOP follows |
| Vpn.VpnPlugin.ResumeBoundService | android/app/src/main/kotlin/com/appshub/bettbox/plugins/VpnPlugin.kt:655-681 | START directly and the TUN started with whatever descriptor `start` gave; only a throw skips the TUN, and the answer is true iff no throw |
| Vpn.VpnPlugin.StopTunAndService | android/app/src/main/kotlin/com/appshub/bettbox/plugins/VpnPlugin.kt:572-588 | the suspend module is removed, the TUN stopped before the bound service, and the service engine released only without a UI engine |
| Vpn.VpnPlugin.HandleStartVpn | android/app/src/main/kotlin/com/appshub/bettbox/plugins/VpnPlugin.kt:240-264 | without an app plugin: STOP; otherwise the permission is requested and the safety timer armed, state untouched |
| Vpn.VpnPlugin.OnPermissionGranted | android/app/src/main/kotlin/com/appshub/bettbox/plugins/VpnPlugin.kt:250-253 | the granted permission runs the service start from the current state |
| Vpn.VpnPlugin.SafetyTimerFired | android/app/src/main/kotlin/com/appshub/bettbox/plugins/VpnPlugin.kt:256-263 | a session still PENDING goes to STOP, and STOP is published; any other state is left alone |
| Vpn.VpnPlugin.HandleStartService | android/app/src/main/kotlin/com/appshub/bettbox/plugins/VpnPlugin.kt:471-531 | no service: bind only, no state change; no options: STOP; else START, parameters cleared, and STOP again without a usable descriptor; the whole new state |
| Vpn.VpnPlugin.InstallSuspendModule | android/app/src/main/kotlin/com/appshub/bettbox/plugins/VpnPlugin.kt:519-525 | a module already installed is uninstalled before the new one is installed |
| Vpn.VpnPlugin.UninstallSuspendModule | android/app/src/main/kotlin/com/appshub/bettbox/plugins/VpnPlugin.kt:572-577 | an installed module is uninstalled once; none is left |
| Vpn.VpnPlugin.HandleStop | android/app/src/main/kotlin/com/appshub/bettbox/plugins/VpnPlugin.kt:561-592 | at STOP nothing changes; otherwise STOP, parameters forgotten, suspend module removed, TUN then service stopped, service engine released without a UI engine |
| Vpn.VpnPlugin.HandleSmartStop | android/app/src/main/kotlin/com/appshub/bettbox/plugins/VpnPlugin.kt:598-629 | at STOP nothing changes; otherwise STOP and smart-stopped, TUN stopped, notification refreshed, and the service never stopped |
| Vpn.VpnPlugin.HandleSmartResume | android/app/src/main/kotlin/com/appshub/bettbox/plugins/VpnPlugin.kt:635-683 | at START nothing changes; else smart stop cleared and options stored; no service: rebind only; with one: START directly and the TUN started with whatever `start` gave |
| Vpn.VpnPlugin.OnUpdateNetwork | android/app/src/main/kotlin/com/appshub/bettbox/plugins/VpnPlugin.kt:273-283 | the UI is sent the distinct DNS servers of all tracked networks, comma-joined |
| Vpn.VpnPlugin.SetQuickResponse | android/app/src/main/kotlin/com/appshub/bettbox/plugins/VpnPlugin.kt:187-189 | quick response takes the given setting |
| Vpn.VpnPlugin.SetSmartStopped | android/app/src/main/kotlin/com/appshub/bettbox/plugins/VpnPlugin.kt:151-156 | the smart-stopped flag takes the given value |
| Vpn.VpnPlugin.HandleNetworkChange | android/app/src/main/kotlin/com/appshub/bettbox/plugins/VpnPlugin.kt:330-374 | no-op unless quick response is on and START; the first reading only records the type; an unchanged type does nothing; a change asks the limiter and stops if it allows |
| Vpn.VpnPlugin.OnAvailable | android/app/src/main/kotlin/com/appshub/bettbox/plugins/VpnPlugin.kt:286-291 | the network joins the set once |
| Vpn.VpnPlugin.OnLost | android/app/src/main/kotlin/com/appshub/bettbox/plugins/VpnPlugin.kt:293-298 | the network leaves the set |
| Vpn.VpnPlugin.GetLocalIpAddresses | android/app/src/main/kotlin/com/appshub/bettbox/plugins/VpnPlugin.kt:195-216 | the result is exactly the non-loopback IPv4 host addresses of the tracked networks, in order |
| Vpn.VpnPlugin.StartForeground | android/app/src/main/kotlin/com/appshub/bettbox/plugins/VpnPlugin.kt:388-437 | skipped unless START or smart-stopped; parameters fall back to the last, then empty; pushed to the service only when changed |
| Vpn.VpnPlugin.UpdateNotificationIcon | android/app/src/main/kotlin/com/appshub/bettbox/plugins/VpnPlugin.kt:443-462 | with last parameters and a service, the builder is reset and the notification rebuilt from them; otherwise nothing |
| Vpn.VpnPlugin.RequestGc | android/app/src/main/kotlin/com/appshub/bettbox/plugins/VpnPlugin.kt:266-269 | the UI is asked to collect garbage |
| Vpn.VpnPlugin.Protect | android/app/src/main/kotlin/com/appshub/bettbox/plugins/VpnPlugin.kt:533-537 | a socket is protected only through the bound tunnel service |
| Vpn.VpnPlugin.ResolverProcess | android/app/src/main/kotlin/com/appshub/bettbox/plugins/VpnPlugin.kt:539-559 | uid -1 gives "" without touching the cache; a cached uid answers with no lookup; otherwise the first package (or "") is cached, with a lookup only when a package manager exists |
| VpnPolicy.PlainServiceNeverUsable | android/app/src/main/kotlin/com/appshub/bettbox/services/BettboxService.kt:16 | whatever the options, the plain service answers descriptor 0, which is never usable |
| VpnPolicy.TunnelServiceUsable | android/app/src/main/kotlin/com/appshub/bettbox/plugins/VpnPlugin.kt:497-502 | the tunnel service gives a usable descriptor iff no builder call threw and `establish()` gave a non-zero one |
| VpnPolicy.QuickStep | android/app/src/main/kotlin/com/appshub/bettbox/plugins/VpnPlugin.kt:354-370 | a window older than 5000 ms restarts at now; a stop is forced and counted while fewer than 2 were counted |
| VpnPolicy.QuickStops | android/app/src/main/kotlin/com/appshub/bettbox/plugins/VpnPlugin.kt:354-370 | a series of type changes forces at most one stop per change |
| VpnPolicy.StopsWithinWindow | android/app/src/main/kotlin/com/appshub/bettbox/plugins/VpnPlugin.kt:354-370 | inside one window the limiter forces exactly the stops the window has left |
| VpnPolicy.FreshWindowForcesAtMostTwo | android/app/src/main/kotlin/com/appshub/bettbox/plugins/VpnPlugin.kt:354-370 | changes within 5000 ms of one that opens a window force exactly min(n, 2) stops |
| VpnPolicy.ThreeFlipsTwoStops | android/app/src/main/kotlin/com/appshub/bettbox/plugins/VpnPlugin.kt:354-370 | three changes in one window force exactly two stops |
| VpnPolicy.NetworkType | android/app/src/main/kotlin/com/appshub/bettbox/plugins/VpnPlugin.kt:376-386 | -1 without an active network or capabilities, 1 for Wi-Fi (preferred), 2 for cellular, 0 otherwise |
| VpnPolicy.ChooseParams | android/app/src/main/kotlin/com/appshub/bettbox/plugins/VpnPlugin.kt:407-412 | the fetched parameters, else the last ones, else empty ones; `VpnPolicy.ChooseParamsFallback` states the cases |
| VpnPolicy.ParamsChanged | android/app/src/main/kotlin/com/appshub/bettbox/plugins/VpnPlugin.kt:417-418 | a push happens iff the chosen parameters differ from the last; `VpnPolicy.ChooseParamsFallback` and `VpnPolicy.SecondIdenticalRefreshIsSilent` state its consequences |
| VpnPolicy.ChooseParamsFallback | android/app/src/main/kotlin/com/appshub/bettbox/plugins/VpnPlugin.kt:398-425 | a failed fetch reuses the last parameters and pushes nothing, or pushes empty ones when none are known; a fetched answer pushes iff new |
| VpnPolicy.SecondIdenticalRefreshIsSilent | android/app/src/main/kotlin/com/appshub/bettbox/plugins/VpnPlugin.kt:416-425 | two refreshes with the same answer notify at most once |
| VpnPolicy.NextUid | android/app/src/main/kotlin/com/appshub/bettbox/plugins/VpnPlugin.kt:545-549 | from Android 10 the platform's owner uid (-1 without one), before that the uid the Go core passed in |
| VpnPolicy.PackageName | android/app/src/main/kotlin/com/appshub/bettbox/plugins/VpnPlugin.kt:553-556 | the first package name, "" without an answer (null package manager or null array), and a throw for an empty array |
| VpnPolicy.Distinct | android/app/src/main/kotlin/com/appshub/bettbox/plugins/VpnPlugin.kt:276 | the same servers without repetitions, ordered by where each first occurs |
| VpnPolicy.Join | android/app/src/main/kotlin/com/appshub/bettbox/plugins/VpnPlugin.kt:276 | an empty list joins to "" |
| VpnPolicy.SplitJoin | android/app/src/main/kotlin/com/appshub/bettbox/plugins/VpnPlugin.kt:276 | joined servers without the separator split back into the same list |
| VpnPolicy.Flatten | android/app/src/main/kotlin/com/appshub/bettbox/plugins/VpnPlugin.kt:274-275 | a server is in the flattened list iff some network reports it |
| VpnPolicy.DnsCsv | android/app/src/main/kotlin/com/appshub/bettbox/plugins/VpnPlugin.kt:274-276 | the comma-joined distinct servers of all networks; `VpnPolicy.DnsCsvReadsBack` states what the UI reads back |
| VpnPolicy.DnsCsvReadsBack | android/app/src/main/kotlin/com/appshub/bettbox/plugins/VpnPlugin.kt:273-276 | the UI reads back exactly the servers of all networks, each once |
| VpnPolicy.Ipv4Of | android/app/src/main/kotlin/com/appshub/bettbox/plugins/VpnPlugin.kt:200-209 | a network yields at most one address per link address |
| VpnPolicy.Ipv4OfSound | android/app/src/main/kotlin/com/appshub/bettbox/plugins/VpnPlugin.kt:200-209 | every kept address belongs to a present, non-loopback link address without ':' |
| VpnPolicy.LocalIpv4 | android/app/src/main/kotlin/com/appshub/bettbox/plugins/VpnPlugin.kt:197-210 | the addresses the loop collects; `VpnPolicy.LocalIpv4Sound` and `VpnPolicy.LocalIpv4Complete` state exactly which |
| VpnPolicy.LocalIpv4Sound | android/app/src/main/kotlin/com/appshub/bettbox/plugins/VpnPlugin.kt:195-216 | every reported address is IPv4 and comes from a tracked network |
| VpnPolicy.Ipv4OfComplete | android/app/src/main/kotlin/com/appshub/bettbox/plugins/VpnPlugin.kt:201-209 | every present, non-loopback IPv4 link address of a network gives its host address |
| VpnPolicy.LocalIpv4Complete | android/app/src/main/kotlin/com/appshub/bettbox/plugins/VpnPlugin.kt:197-210 | every address a tracked network with link properties contributes is reported |
| TunnelConfig.RemoveFirst | android/app/src/main/kotlin/com/appshub/bettbox/services/BettboxVpnService.kt:125 | `List.minus` removes the first occurrence of a present element, keeping the order of the rest, and changes nothing otherwise |
| TunnelConfig.AddRoutes | android/app/src/main/kotlin/com/appshub/bettbox/services/BettboxVpnService.kt:56-70 | the route loop adds routes until one is refused, then the catch-all route |
| TunnelConfig.AddApplications | android/app/src/main/kotlin/com/appshub/bettbox/services/BettboxVpnService.kt:115-128 | the package loop adds packages until one is not installed, which throws |
| TunnelConfig.Start | android/app/src/main/kotlin/com/appshub/bettbox/services/BettboxVpnService.kt:44-172 | the builder receives exactly the planned calls; a descriptor is returned iff nothing threw and `establish()` gave one |
| TunnelConfig.Ipv4Stage | android/app/src/main/kotlin/com/appshub/bettbox/services/BettboxVpnService.kt:51-75 | a refused address throws before any call; an accepted one is added first; only a refused address or a refused catch-all route throws |
| TunnelConfig.Ipv6Stage | android/app/src/main/kotlin/com/appshub/bettbox/services/BettboxVpnService.kt:77-101 | never throws; makes calls exactly when an address is given and accepted |
| TunnelConfig.DnsStage | android/app/src/main/kotlin/com/appshub/bettbox/services/BettboxVpnService.kt:105 | throws iff the server is refused, otherwise adds exactly that server |
| TunnelConfig.AppStage | android/app/src/main/kotlin/com/appshub/bettbox/services/BettboxVpnService.kt:112-134 | throws iff some listed package is not installed |
| TunnelConfig.SessionStage | android/app/src/main/kotlin/com/appshub/bettbox/services/BettboxVpnService.kt:136-160 | never throws; the metered flag is cleared iff Android 10 or later |
| TunnelConfig.Plan | android/app/src/main/kotlin/com/appshub/bettbox/services/BettboxVpnService.kt:44-172 | the configuration goes through iff the IPv4 part, the DNS server and the applications do; the IPv6 part and the session settings never stop it |
| TunnelConfig.Outcome | android/app/src/main/kotlin/com/appshub/bettbox/services/BettboxVpnService.kt:44-172 | a descriptor iff no call threw and `establish()` gave one, and then exactly that descriptor |
| TunnelConfig.PlanSucceeded | android/app/src/main/kotlin/com/appshub/bettbox/services/BettboxVpnService.kt:44-172 | a configuration that goes through makes its calls in the source's order: IPv4, IPv6, DNS, MTU 1480, applications, then session settings |
| TunnelConfig.DnsAndMtuAlwaysApplied | android/app/src/main/kotlin/com/appshub/bettbox/services/BettboxVpnService.kt:103-109 | the options' DNS server and MTU 1480 are always set, and no other value |
| TunnelConfig.CatchAllIpv4Route | android/app/src/main/kotlin/com/appshub/bettbox/services/BettboxVpnService.kt:51-74 | no IPv4 address, no specific routes or a refused route adds 0.0.0.0/0, after the routes already added |
| TunnelConfig.Ipv6IsOptional | android/app/src/main/kotlin/com/appshub/bettbox/services/BettboxVpnService.kt:76-101 | IPv6 only with an IPv6 address, ::/0 without specific routes, and never a cause of failure |
| TunnelConfig.AppStageCalls | android/app/src/main/kotlin/com/appshub/bettbox/services/BettboxVpnService.kt:112-133 | one call of the mode's kind per listed package, and no other |
| TunnelConfig.AccessControlApplied | android/app/src/main/kotlin/com/appshub/bettbox/services/BettboxVpnService.kt:112-133 | accept mode allows exactly the accept list plus the app; reject mode disallows exactly the reject list minus the app; off adds neither |
| TunnelConfig.OwnPackageNotDisallowed | android/app/src/main/kotlin/com/appshub/bettbox/services/BettboxVpnService.kt:125 | the app is never disallowed unless it is listed twice |
| TunnelConfig.SessionBypassAndProxy | android/app/src/main/kotlin/com/appshub/bettbox/services/BettboxVpnService.kt:141-158 | within the session stage: bypass iff asked; a proxy call iff Android 10+ and the system proxy is on, and it is always 127.0.0.1:port with the bypass list |
| TunnelConfig.BypassAndProxy | android/app/src/main/kotlin/com/appshub/bettbox/services/BettboxVpnService.kt:141-158 | bypass iff asked; proxy 127.0.0.1:port iff Android 10+ and the system proxy is on |
| VpnService.BettboxVpnService.OnCreate | android/app/src/main/kotlin/com/appshub/bettbox/services/BettboxVpnService.kt:32-42 | the service engine is created unless it exists |
| VpnService.BettboxVpnService.Start | android/app/src/main/kotlin/com/appshub/bettbox/services/BettboxVpnService.kt:44-172 | the descriptor from `establish()`, or a throw when a call threw or establish gave none |
| VpnService.BettboxVpnService.Stop | android/app/src/main/kotlin/com/appshub/bettbox/services/BettboxVpnService.kt:174-181 | the service stops itself and, from Android 10, removes its notification |
| VpnService.BettboxVpnService.OnRevoke | android/app/src/main/kotlin/com/appshub/bettbox/services/BettboxVpnService.kt:183-187 | a revoked VPN stops the session through the plugin (nothing at STOP), then the service asks to be stopped even at STOP, keeping its notification |
| VpnService.BettboxVpnService.OnTransact | android/app/src/main/kotlin/com/appshub/bettbox/services/BettboxVpnService.kt:273-287 | the result passes through; a failure calls the tile plugin's stop when there is one |
| VpnService.BettboxVpnService.ResetNotificationBuilder | android/app/src/main/kotlin/com/appshub/bettbox/services/BettboxVpnService.kt:191-193 | the cached builder is cleared |
| VpnService.BettboxVpnService.NotificationBuilder | android/app/src/main/kotlin/com/appshub/bettbox/services/BettboxVpnService.kt:195-200 | a cached builder is reused; otherwise exactly one is created and cached |
| VpnService.BettboxVpnService.StartForeground | android/app/src/main/kotlin/com/appshub/bettbox/services/BettboxVpnService.kt:202-260 | the channel is added only when absent, other channels kept; the builder is the cached one or, on first use, `CreateNotificationBuilder` for this app (counted once); the notification with the composed text is shown with the first accepted type |
| VpnService.BettboxVpnService.OnTrimMemory | android/app/src/main/kotlin/com/appshub/bettbox/services/BettboxVpnService.kt:262-266 | garbage collection is requested iff the service engine has the VPN plugin |
| VpnService.BettboxVpnService.OnDestroy | android/app/src/main/kotlin/com/appshub/bettbox/services/BettboxVpnService.kt:300-304 | destroying always stops |
| PlainService.BettboxService.Start | android/app/src/main/kotlin/com/appshub/bettbox/services/BettboxService.kt:16 | the descriptor is 0 for every options value |
| PlainService.BettboxService.Stop | android/app/src/main/kotlin/com/appshub/bettbox/services/BettboxService.kt:18-23 | the service stops itself and, from Android 10, removes its notification |
| PlainService.BettboxService.ResetNotificationBuilder | android/app/src/main/kotlin/com/appshub/bettbox/services/BettboxService.kt:27-29 | the cached builder is cleared |
| PlainService.BettboxService.NotificationBuilder | android/app/src/main/kotlin/com/appshub/bettbox/services/BettboxService.kt:31-36 | a cached builder is reused; otherwise exactly one is created and cached |
| PlainService.BettboxService.StartForeground | android/app/src/main/kotlin/com/appshub/bettbox/services/BettboxService.kt:38-87 | the channel is added only when absent, other channels kept; the builder is the cached one or, on first use, `CreateNotificationBuilder` for this app (counted once); the notification with the composed text is shown with the first accepted type |
| PlainService.BettboxService.OnTrimMemory | android/app/src/main/kotlin/com/appshub/bettbox/services/BettboxService.kt:89-92 | garbage collection is requested iff the service engine has the VPN plugin |
| PlainService.BettboxService.OnDestroy | android/app/src/main/kotlin/com/appshub/bettbox/services/BettboxService.kt:109-112 | destroying always stops |
| ServiceBase.TrimStart | android/app/src/main/kotlin/com/appshub/bettbox/services/BettboxService.kt:42 | a suffix after blank characters, starting with a non-blank one, empty iff all blank |
| ServiceBase.TrimEnd | android/app/src/main/kotlin/com/appshub/bettbox/services/BettboxService.kt:42 | a prefix before blank characters, ending with a non-blank one, empty iff all blank |
| ServiceBase.TrimIsSlice | android/app/src/main/kotlin/com/appshub/bettbox/services/BettboxService.kt:42 | the trimmed content is a slice with only whitespace around it, empty iff the content is blank |
| ServiceBase.TrimIdempotent | android/app/src/main/kotlin/com/appshub/bettbox/services/BettboxService.kt:42 | trimming twice trims nothing more |
| ServiceBase.NotificationTextShape | android/app/src/main/kotlin/com/appshub/bettbox/services/BettboxService.kt:41-60 | never blank; starts with the title or "Bettbox"; blank content gives the title alone; else separator then the trimmed content, which is the smaller span |
| ServiceBase.ServiceForegroundTypes | android/app/src/main/kotlin/com/appshub/bettbox/services/BettboxService.kt:63-86 | Android 14+: special use, data sync, untyped; earlier: untyped only |
| ServiceBase.FirstAccepted | android/app/src/main/kotlin/com/appshub/bettbox/services/BettboxService.kt:63-86 | the first type not refused, all before it refused; none iff every type is refused |
| ServiceBase.ServiceHost.StartForegroundTyped | android/app/src/main/kotlin/com/appshub/bettbox/services/BettboxService.kt:63-86 | the notification is shown with the first accepted type; when all are refused nothing changes |
| ServiceBase.ServiceHost.StopService | android/app/src/main/kotlin/com/appshub/bettbox/services/BettboxService.kt:18-23 | stopped, and the notification removed exactly from Android 10 |
| ServiceBase.EnabledState | android/app/src/main/kotlin/com/appshub/bettbox/services/BaseServiceInterface.kt:47-57 | a lookup that throws counts as the default state |
| ServiceBase.ThrowingLookupIsDefault | android/app/src/main/kotlin/com/appshub/bettbox/services/BaseServiceInterface.kt:47-57 | a throwing lookup chooses the same activity as the default state |
| ServiceBase.LaunchTarget | android/app/src/main/kotlin/com/appshub/bettbox/services/BaseServiceInterface.kt:60-98 | the light setting decides first (ENABLED: light activity, DISABLED: main); `ServiceBase.LightTargetExactly` gives the whole table |
| ServiceBase.NotificationText | android/app/src/main/kotlin/com/appshub/bettbox/services/BettboxService.kt:41-60 | the smaller span starts inside the text; `ServiceBase.NotificationTextShape` gives the title, separator and trimmed content (the same code is at BettboxVpnService.kt:208-227) |
| ServiceBase.LightTargetExactly | android/app/src/main/kotlin/com/appshub/bettbox/services/BaseServiceInterface.kt:60-98 | the light activity is chosen iff light enabled, or not disabled and (default disabled, or default not enabled and the manifest enables light) |
| ServiceBase.IsLightIconEnabled | android/app/src/main/kotlin/com/appshub/bettbox/services/BaseServiceInterface.kt:144-155 | true iff the light setting reads ENABLED; false on a throw |
| ServiceBase.LightIconOpensLightActivity | android/app/src/main/kotlin/com/appshub/bettbox/services/BaseServiceInterface.kt:60-65 | an enabled light icon always opens the light activity |
| ServiceBase.LaunchIntent | android/app/src/main/kotlin/com/appshub/bettbox/services/BaseServiceInterface.kt:101-107 | ACTION_MAIN, CATEGORY_LAUNCHER, NEW_TASK and CLEAR_TOP for the chosen activity |
| ServiceBase.PendingIntentFlags | android/app/src/main/kotlin/com/appshub/bettbox/services/BaseServiceInterface.kt:111-122 | always UPDATE_CURRENT; IMMUTABLE iff Android 12+ |
| ServiceBase.CreateNotificationBuilder | android/app/src/main/kotlin/com/appshub/bettbox/services/BaseServiceInterface.kt:124-140 | the app's channel, titled "Bettbox", opening the launch target, ongoing, no time, alert once, immediate iff Android 12+ |
| ServiceBase.ServiceHost.EnsureNotificationChannel | android/app/src/main/kotlin/com/appshub/bettbox/services/BaseServiceInterface.kt:157-168 | from Android 8 the low-importance channel is created only when absent; an existing one is kept |
| ServiceBase.ExtensionForegroundTypes | android/app/src/main/kotlin/com/appshub/bettbox/services/BaseServiceInterface.kt:174-184 | Android 14+: data sync then untyped; earlier: untyped; never special use |
| ServiceBase.ServiceHost.StartForegroundWithNotification | android/app/src/main/kotlin/com/appshub/bettbox/services/BaseServiceInterface.kt:170-185 | channel ensured; the notification shown with data sync or untyped, never special use |
| Logging.ModuleTag | android/app/src/main/kotlin/com/appshub/bettbox/util/LogUtils.kt:10-21 | every module tag starts with "Bettbox." |
| Logging.Priority | android/app/src/main/kotlin/com/appshub/bettbox/util/LogUtils.kt:26-34 | priorities run from 2 to 8, and 8 is NONE alone |
| Logging.PrioritiesIncrease | android/app/src/main/kotlin/com/appshub/bettbox/util/LogUtils.kt:26-34 | priorities strictly increase in declaration order |
| Logging.LevelTag | android/app/src/main/kotlin/com/appshub/bettbox/util/LogUtils.kt:127-135 | one letter per level, "?" only for NONE |
| Logging.Header | android/app/src/main/kotlin/com/appshub/bettbox/util/LogUtils.kt:127-137 | the `[level/tag] ` part of a line; `Logging.FormatMessage` states where it sits |
| Logging.FormatMessage | android/app/src/main/kotlin/com/appshub/bettbox/util/LogUtils.kt:119-144 | timestamp, thread, level/module header, then the message, with newline and stack trace iff a throwable is given |
| Logging.EnablingFirstModuleRestricts | android/app/src/main/kotlin/com/appshub/bettbox/util/LogUtils.kt:73-75 | enabling one module from the empty set filters out every other module, which passed before |
| Logging.LogUtils.constructor | android/app/src/main/kotlin/com/appshub/bettbox/util/LogUtils.kt:49-57 | minimum level DEBUG, debug mode on, all modules enabled |
| Logging.LogUtils.SetEnabledModules | android/app/src/main/kotlin/com/appshub/bettbox/util/LogUtils.kt:66-68 | the enabled set becomes exactly the listed modules |
| Logging.LogUtils.EnableModule | android/app/src/main/kotlin/com/appshub/bettbox/util/LogUtils.kt:73-75 | the module is added and nothing else changes |
| Logging.LogUtils.DisableModule | android/app/src/main/kotlin/com/appshub/bettbox/util/LogUtils.kt:80-82 | the module is removed and nothing else changes |
| Logging.LogUtils.ShouldLog | android/app/src/main/kotlin/com/appshub/bettbox/util/LogUtils.kt:87-99 | false iff the level is below the minimum, or the enabled set is non-empty and lacks the module |
| Logging.LogUtils.Log | android/app/src/main/kotlin/com/appshub/bettbox/util/LogUtils.kt:149-164 | a line is written iff it passes the filters and the level is not NONE, through the level's own `Log` entry point, under the module's tag with the formatted text |
| Logging.CallFor | android/app/src/main/kotlin/com/appshub/bettbox/util/LogUtils.kt:155-162 | ERROR is written with `e` and ASSERT with `wtf`, and no other level uses either |
| Logging.LogUtils.LogThrowable | android/app/src/main/kotlin/com/appshub/bettbox/util/LogUtils.kt:192-194 | an ERROR line with the stack trace and the given message, else the throwable's, else "Unknown error" |
| Logging.LogUtils.MethodEnter | android/app/src/main/kotlin/com/appshub/bettbox/util/LogUtils.kt:210-214 | "▶ name" at DEBUG, only while the minimum is at most DEBUG |
| Logging.LogUtils.MethodExit | android/app/src/main/kotlin/com/appshub/bettbox/util/LogUtils.kt:219-224 | "◀ name", with " = result" iff a result is given, only while the minimum is at most DEBUG |
| Logging.LogUtils.MethodException | android/app/src/main/kotlin/com/appshub/bettbox/util/LogUtils.kt:229-231 | "✗ name" at ERROR with the stack trace |
| Logging.LogUtils.PrintSeparator | android/app/src/main/kotlin/com/appshub/bettbox/util/LogUtils.kt:236-241 | 50 '═', or bar, title, bar for a non-empty title, only while the minimum is at most INFO |
| Logging.LogUtils.SilentMinimumSilencesAll | android/app/src/main/kotlin/com/appshub/bettbox/util/LogUtils.kt:155-163 | with the minimum at NONE nothing is written |
| Tile.TileState | android/app/src/main/kotlin/com/appshub/bettbox/services/BettboxTileService.kt:25-29 | START active, PENDING unavailable, STOP inactive |
| Tile.TileStateDistinguishes | android/app/src/main/kotlin/com/appshub/bettbox/services/BettboxTileService.kt:25-29 | different run states show different tile states |
| Tile.BettboxTileService.UpdateTile | android/app/src/main/kotlin/com/appshub/bettbox/services/BettboxTileService.kt:23-32 | with a tile it shows the mapped state and redraws; without one nothing changes |
| Tile.BettboxTileService.OnStartListening | android/app/src/main/kotlin/com/appshub/bettbox/services/BettboxTileService.kt:34-39 | the status is requested and the current state shown; a newly registered observer redraws again with the published value, an already registered one does not |
| Tile.BettboxTileService.OnRunStatePublished | android/app/src/main/kotlin/com/appshub/bettbox/services/BettboxTileService.kt:19-21 | a published state is shown while observing, and not after the observer is removed |
| Tile.BettboxTileService.OnClick | android/app/src/main/kotlin/com/appshub/bettbox/services/BettboxTileService.kt:43-52 | each click leads to one toggle: now when unlocked, after the unlock when locked |
| Tile.BettboxTileService.OnUnlocked | android/app/src/main/kotlin/com/appshub/bettbox/services/BettboxTileService.kt:46-48 | the unlock runs one waiting toggle |
| Tile.BettboxTileService.OnDestroy | android/app/src/main/kotlin/com/appshub/bettbox/services/BettboxTileService.kt:62-65 | the observer is removed |

## Left out

- Locks, `@Volatile`, coroutines, `delay`, `withTimeoutOrNull`, LiveData posting and Looper checks are not modelled. Every handler runs atomically. A timer or a UI answer arrives as its own method call: `SafetyTimerFired`, `OnPermissionGranted`, `OnStatusSynced`, `StartForeground(fetched)`.
- `onMethodCall`, Gson parsing and `getStatus`/`awaitResult` are left out: they are serialisation plumbing over method-channel messages. The handlers they dispatch to are modelled.
- `getLocalIpAddresses` catches any exception and returns the addresses collected so far. The model has no exception inside the loop, so it always returns the full list.
- `LogUtils.log` also passes the throwable to `Log.x(tag, msg, throwable)`, which prints the stack trace a second time. `LogLine` carries only the formatted text, which holds the stack trace once.
- Tile.BettboxTileService.OnClick: every locked click queues a toggle. The platform's `unlockAndRun` keeps one pending runnable and drops it when the unlock fails or is cancelled; the model does not capture that.
- `registerNetworkCallback` runs asynchronously in the app; it is modelled as taking effect at once in `OnAttachedToEngine`.
- Core.startTun/stopTun, the suspend module, `bindService`/`unbindService` and the UI calls are recorded as trace effects, not modelled. So is a throw from `Core.startTun` inside `handleStartService`, whose catch sets STOP.
- The "invalid binder" exception in `onServiceConnected` is left out: the connected binder is always one of the two service variants.
- `VpnOptions.toCIDR()` and `getIpv4RouteAddress()` live in Kotlin model classes that are not part of this model. Addresses and routes are taken as already parsed, and a parse failure counts as a refusal.
- The Spannable and RelativeSizeSpan rendering (0.80f) is left out; only the text and the index where the smaller span starts are modelled.
- LogUtils timestamps, thread names and stack-trace text are opaque strings. The convenience entry points `v`/`d`/`i`/`w`/`e`/`wtf` are `Logging.LogUtils.Log` at a fixed level.
- The binder's `onBind`/`onUnbind`, `onTileAdded`/`onTileRemoved` and `getService` only return objects or call the superclass, so they are not modelled.
- Vpn.VpnPlugin.OnAvailable: states only the new network set; the DNS push and the network-change handling are the contracts of the `OnUpdateNetwork` and `HandleNetworkChange` it calls.
- Vpn.VpnPlugin.OnLost: states only the new network set, for the same reason.
- Vpn.VpnPlugin.OnPermissionGranted: states the trace and the run state only; the field updates are those of `HandleStartService`.
- Vpn.VpnPlugin.HandleStart: does not state `published`, `lastStartForegroundParams` or `suspendInstalled`; on the service path those follow `HandleStartService`.
- Vpn.VpnPlugin.ApplyOptions: the same as `HandleStart`.
- The bound service's `start` answer is a parameter of the plugin's handlers (`tunnel`), not a call into the service object. It is the value `TunnelConfig.Outcome` gives for the tunnel service (`VpnService.BettboxVpnService.Start`); the plain service's answer 0 is fixed, and `VpnPolicy.TunnelServiceUsable` relates the two.
- VpnService.BettboxVpnService.OnRevoke: states the run state, the trace and the default `onRevoke`'s `stopSelf`; the plugin fields follow `Vpn.VpnPlugin.HandleStop`. The platform's default `onRevoke` is taken to be `stopSelf()` alone.
- ServiceBase.NotificationText: counts the index where the smaller span starts in characters (Unicode scalar values). The source's `length` counts UTF-16 code units, so a title with a character outside the Basic Multilingual Plane, such as an emoji, gives a larger index in the app.
- ServiceBase.ServiceHost.StartForegroundWithNotification: states only that the type is not special use, not which of the two types was taken.
- Tile.BettboxTileService.OnClick: for an honoured toggle it states the run state, the slot time and the trace, not the service engine, which `HandleToggle` states.
- Tile.BettboxTileService.OnUnlocked: the same as `OnClick`.
