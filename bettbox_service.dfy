/**
 * The plain (non-tunnel) foreground service: it keeps the app alive with a
 * notification but opens no tunnel, so its `start` yields descriptor 0.
 */
module PlainService {
  import opened Wrappers
  import opened Models
  import opened Lifecycle
  import opened ServiceBase
  import Global

  class BettboxService {
    const host: ServiceHost
    var cachedBuilder: Option<NotificationBuilder>
    /** How many builders were created so far. */
    ghost var builds: nat

    constructor (host: ServiceHost)
      ensures this.host == host && cachedBuilder.None? && builds == 0
    {
      this.host := host;
      cachedBuilder := None;
      builds := 0;
    }

    /** `start`: no tunnel, descriptor 0, whatever the options. */
    method Start(o: VpnOptions) returns (fd: int)
      ensures fd == 0
    {
      return 0;
    }

    /** `stop`: asks to be stopped and, from Android 10 on, removes the notification. */
    method Stop()
      modifies host
      ensures host.selfStopped
      ensures host.foreground == if host.sdk >= SdkQ then None else old(host.foreground)
    {
      host.StopService();
    }

    method ResetNotificationBuilder()
      modifies this`cachedBuilder
      ensures cachedBuilder.None?
    {
      cachedBuilder := None;
    }

    /** The cached builder, created on first use; one builder serves until it is reset. */
    method NotificationBuilder(q: LauncherQueries) returns (b: NotificationBuilder)
      modifies this`cachedBuilder, this`builds
      ensures old(cachedBuilder).Some? ==> b == old(cachedBuilder).value && builds == old(builds)
      ensures old(cachedBuilder).None? ==>
                b == CreateNotificationBuilder(host.sdk, host.packageName, q.defaultQuery, q.lightQuery, q.manifest)
                && builds == old(builds) + 1
      ensures cachedBuilder == Some(b)
    {
      if cachedBuilder.None? {
        cachedBuilder := Some(CreateNotificationBuilder(host.sdk, host.packageName, q.defaultQuery, q.lightQuery, q.manifest));
        builds := builds + 1;
      }
      b := cachedBuilder.value;
    }

    /**
     * `startForeground(title, content)`: the channel is ensured, the title line
     * composed, and the notification shown with the first foreground type the
     * platform accepts (special use, data sync, untyped from Android 14 on).
     */
    method StartForeground(title: string, content: string, q: LauncherQueries, refused: set<ForegroundType>)
      returns (started: bool)
      modifies this`cachedBuilder, this`builds, host, host.manager
      ensures host.selfStopped == old(host.selfStopped)
      ensures host.manager != null && host.sdk >= SdkO ==> Global.NotificationChannel in host.manager.channels
      ensures cachedBuilder.Some?
      ensures old(cachedBuilder).Some? ==> cachedBuilder == old(cachedBuilder) && builds == old(builds)
      ensures old(cachedBuilder).None? ==>
                cachedBuilder == Some(CreateNotificationBuilder(host.sdk, host.packageName, q.defaultQuery, q.lightQuery, q.manifest))
                && builds == old(builds) + 1
      ensures host.manager != null ==>
                host.manager.channels == (if host.sdk >= SdkO && Global.NotificationChannel !in old(host.manager.channels)
                                          then old(host.manager.channels)[Global.NotificationChannel := (ChannelName, ImportanceLow)]
                                          else old(host.manager.channels))
      ensures started <==> FirstAccepted(ServiceForegroundTypes(host.sdk), refused).Some?
      ensures started ==>
                host.foreground == Some(Foreground(Global.NotificationId,
                                                   Notification(cachedBuilder.value, NotificationText(title, content)),
                                                   ServiceForegroundTypes(host.sdk)[FirstAccepted(ServiceForegroundTypes(host.sdk), refused).value]))
      ensures !started ==> host.foreground == old(host.foreground)
    {
      host.EnsureNotificationChannel();
      var b := NotificationBuilder(q);
      var notification := Notification(b, NotificationText(title, content));
      started := host.StartForegroundTyped(notification, ServiceForegroundTypes(host.sdk), refused);
    }

    /** `onTrimMemory`: the VPN plugin of the service engine, if any, asks the UI to collect garbage. */
    method OnTrimMemory(g: Global.GlobalState)
      modifies g`trace
      ensures g.trace == old(g.trace) + if g.HasVpnPlugin() then [GcRequested] else []
    {
      if g.HasVpnPlugin() {
        g.trace := g.trace + [GcRequested];
      }
    }

    /** `onDestroy` always stops. */
    method OnDestroy()
      modifies host
      ensures host.selfStopped
      ensures host.foreground == if host.sdk >= SdkQ then None else old(host.foreground)
    {
      Stop();
    }
  }
}
