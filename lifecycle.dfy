/**
 * Vocabulary shared by the session controller's modules: the three-valued run
 * state, and the calls the controller makes into collaborators that this model does
 * not contain (the Dart side: tile plugin, app plugin and method channel; the
 * Flutter engine; the Android service binding; the Go tunnel core; the suspend
 * module). The controller records each such call, in order, in a ghost trace, so
 * that contracts can say which calls a handler makes, in which order and how often.
 */
module Lifecycle {
  import opened Wrappers
  import opened Models

  /** The process-wide run state of the tunnel session. */
  datatype RunState = Start | Pending | Stop

  /** The two service variants the plugin can bind. */
  datatype Variant = TunnelVariant | PlainVariant

  /** A live binding: which variant, and which service instance the platform handed back. */
  datatype BoundService = BoundService(variant: Variant, instance: nat)

  datatype Effect =
    | RunStatePublished(state: RunState)            // value posted to the runState LiveData
    | TileStart                                     // TilePlugin.handleStart()
    | TileStop                                      // TilePlugin.handleStop()
    | EngineCreated(entrypointArgs: Option<seq<string>>)  // new service FlutterEngine running `_service`
    | EngineDestroyed                               // serviceEngine.destroy()
    | StatusRequested                               // VpnPlugin.getStatus() round trip
    | PermissionRequested                           // AppPlugin.requestVpnPermission
    | SafetyTimerArmed                              // the 5 s PENDING watchdog is launched
    | Bind(variant: Variant)                        // Context.bindService
    | Unbind                                        // Context.unbindService
    | StartTun(fd: int)                             // Core.startTun
    | StopTun                                       // Core.stopTun
    | ServiceStop(instance: nat)                    // bound service .stop()
    | SuspendInstalled                              // SuspendModule.install()
    | SuspendUninstalled                            // SuspendModule.uninstall()
    | ForegroundRefreshScheduled                    // scope.launch { startForeground() }
    | Notify(instance: nat, params: StartForegroundParams)  // bound service .startForeground
    | NotificationBuilderReset(instance: nat)       // service .resetNotificationBuilder()
    | PackageLookup(uid: int)                       // PackageManager.getPackagesForUid
    | DnsChanged(dns: string)                       // "dnsChanged" sent to the UI
    | GcRequested                                   // "gc" sent to the UI
}
