/**
 * The tunnel foreground service: it configures and establishes the TUN interface
 * (see the TunnelConfig module), reports a revoked VPN permission and a failed
 * binder transaction, and shows the same notification as the plain service.
 */
module VpnService {
  import opened Wrappers
  import opened Models
  import opened Lifecycle
  import opened ServiceBase
  import TunnelConfig
  import Global
  import Vpn

  class BettboxVpnService {
    const host: ServiceHost
    const g: Global.GlobalState
    var cachedBuilder: Option<NotificationBuilder>
    /** How many builders were created so far. */
    ghost var builds: nat

    constructor (host: ServiceHost, g: Global.GlobalState)
      ensures this.host == host && this.g == g && cachedBuilder.None? && builds == 0
    {
      this.host := host;
      this.g := g;
      cachedBuilder := None;
      builds := 0;
    }

    /** `onCreate`: the service engine is created if there is none. */
    method OnCreate()
      modifies g`serviceEngine, g`trace
      ensures g.serviceEngine == if old(g.serviceEngine).Some? then old(g.serviceEngine)
                                 else Some(Global.NewServiceEngine(g.flutterEngine))
      ensures g.trace == old(g.trace) + old(g.InitEffects())
    {
      g.InitServiceEngine();
    }

    /**
     * `start`: the builder configured for the options on this platform, and the
     * descriptor `establish()` detaches, or a throw.
     */
    method Start(o: VpnOptions, p: TunnelConfig.TunPlatform) returns (outcome: TunnelConfig.StartOutcome)
      ensures outcome == TunnelConfig.Outcome(o, p)
      ensures outcome.Fd? <==> !TunnelConfig.Plan(o, p).threw && p.establishedFd.Some?
    {
      var calls;
      outcome, calls := TunnelConfig.Start(o, p);
    }

    /** `stop`: asks to be stopped and, from Android 10 on, removes the notification. */
    method Stop()
      modifies host
      ensures host.selfStopped
      ensures host.foreground == if host.sdk >= SdkQ then None else old(host.foreground)
    {
      host.StopService();
    }

    /**
     * `onRevoke`: the system withdrew the VPN; the plugin stops the session, then the
     * platform's default `onRevoke` asks the service to stop, even when the session
     * was already at STOP (after a smart stop the service is still running).
     */
    method OnRevoke(plugin: Vpn.VpnPlugin)
      requires plugin.g == g && plugin.Valid()
      modifies plugin, g, host`selfStopped
      ensures plugin.Valid()
      ensures host.selfStopped && host.foreground == old(host.foreground)
      ensures old(g.currentRunState) == RunState.Stop ==> g.CurrentStatus() == old(g.CurrentStatus()) && g.trace == old(g.trace)
      ensures old(g.currentRunState) != RunState.Stop ==>
                && g.currentRunState == RunState.Stop
                && g.trace == old(g.trace) + Vpn.StopEffects(old(plugin.suspendInstalled), old(plugin.bettBoxService),
                                                            old(g.flutterEngine), old(g.serviceEngine))
    {
      plugin.HandleStop();
      host.StopSelf();
    }

    /**
     * `LocalBinder.onTransact`: passes the transaction's result through; a failed
     * one makes the tile plugin, if any, stop the session.
     */
    method OnTransact(success: bool) returns (result: bool)
      modifies g`trace
      ensures result == success
      ensures g.trace == old(g.trace) + if !success && g.TilePlugin().Some? then [TileStop] else []
    {
      if !success {
        g.StopViaTilePlugin();
      }
      return success;
    }

    method ResetNotificationBuilder()
      modifies this`cachedBuilder
      ensures cachedBuilder.None?
    {
      cachedBuilder := None;
    }

    /** The cached builder, created on first use; one builder serves until it is reset. */
    method NotificationBuilder(q: LauncherQueries) returns (b: NotificationBuilder)
      modifies this`cachedBuilder, this`builds
      ensures old(cachedBuilder).Some? ==> b == old(cachedBuilder).value && builds == old(builds)
      ensures old(cachedBuilder).None? ==>
                b == CreateNotificationBuilder(host.sdk, host.packageName, q.defaultQuery, q.lightQuery, q.manifest)
                && builds == old(builds) + 1
      ensures cachedBuilder == Some(b)
    {
      if cachedBuilder.None? {
        cachedBuilder := Some(CreateNotificationBuilder(host.sdk, host.packageName, q.defaultQuery, q.lightQuery, q.manifest));
        builds := builds + 1;
      }
      b := cachedBuilder.value;
    }

    /**
     * `startForeground(title, content)`: the channel is ensured, the title line
     * composed, and the notification shown with the first foreground type the
     * platform accepts (special use, data sync, untyped from Android 14 on).
     */
    method StartForeground(title: string, content: string, q: LauncherQueries, refused: set<ForegroundType>)
      returns (started: bool)
      modifies this`cachedBuilder, this`builds, host, host.manager
      ensures host.selfStopped == old(host.selfStopped)
      ensures host.manager != null && host.sdk >= SdkO ==> Global.NotificationChannel in host.manager.channels
      ensures cachedBuilder.Some?
      ensures old(cachedBuilder).Some? ==> cachedBuilder == old(cachedBuilder) && builds == old(builds)
      ensures old(cachedBuilder).None? ==>
                cachedBuilder == Some(CreateNotificationBuilder(host.sdk, host.packageName, q.defaultQuery, q.lightQuery, q.manifest))
                && builds == old(builds) + 1
      ensures host.manager != null ==>
                host.manager.channels == (if host.sdk >= SdkO && Global.NotificationChannel !in old(host.manager.channels)
                                          then old(host.manager.channels)[Global.NotificationChannel := (ChannelName, ImportanceLow)]
                                          else old(host.manager.channels))
      ensures started <==> FirstAccepted(ServiceForegroundTypes(host.sdk), refused).Some?
      ensures started ==>
                host.foreground == Some(Foreground(Global.NotificationId,
                                                   Notification(cachedBuilder.value, NotificationText(title, content)),
                                                   ServiceForegroundTypes(host.sdk)[FirstAccepted(ServiceForegroundTypes(host.sdk), refused).value]))
      ensures !started ==> host.foreground == old(host.foreground)
    {
      host.EnsureNotificationChannel();
      var b := NotificationBuilder(q);
      var notification := Notification(b, NotificationText(title, content));
      started := host.StartForegroundTyped(notification, ServiceForegroundTypes(host.sdk), refused);
    }

    /** `onTrimMemory`: the VPN plugin of the service engine, if any, asks the UI to collect garbage. */
    method OnTrimMemory()
      modifies g`trace
      ensures g.trace == old(g.trace) + if g.HasVpnPlugin() then [GcRequested] else []
    {
      if g.HasVpnPlugin() {
        g.trace := g.trace + [GcRequested];
      }
    }

    /** `onDestroy` always stops. */
    method OnDestroy()
      modifies host
      ensures host.selfStopped
      ensures host.foreground == if host.sdk >= SdkQ then None else old(host.foreground)
    {
      Stop();
    }
  }
}
