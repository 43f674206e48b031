/**
 * The VPN plugin: the supervisor that binds one of the two services, starts and
 * stops the session, pauses and resumes it ("smart" stop), forces a reconnect when
 * the network type changes ("quick response"), keeps the foreground notification
 * up to date and attributes connections to apps. Calls it makes into the platform,
 * the Go core and the UI are recorded in the global trace.
 */
module Vpn {
  import opened Wrappers
  import opened Models
  import opened Lifecycle
  import opened Global
  import TunnelConfig
  import opened VpnPolicy

  /** A platform network handle. */
  type Network = nat

  /** The service variant `bindService` binds: the tunnel service exactly when the options ask for the tunnel. */
  function VariantFor(options: Option<VpnOptions>): (v: Variant)
    ensures v == TunnelVariant <==> options.Some? && options.value.enable
  {
    if options.Some? && options.value.enable then TunnelVariant else PlainVariant
  }

  /** `bindService`: an earlier binding is released first, then the variant is bound. */
  function BindEffects(isBind: bool, options: Option<VpnOptions>): seq<Effect> {
    (if isBind then [Unbind] else []) + [Bind(VariantFor(options))]
  }

  /** Installing the suspend module replaces one already installed. */
  function InstallEffects(installed: bool): seq<Effect> {
    (if installed then [SuspendUninstalled] else []) + [SuspendInstalled]
  }

  /** What a session does once it has a descriptor: start the TUN, refresh the notification, maybe install the suspend module. */
  function RunEffects(fd: int, o: VpnOptions, suspendInstalled: bool): seq<Effect> {
    [StartTun(fd), ForegroundRefreshScheduled] + (if o.dozeSuspend then InstallEffects(suspendInstalled) else [])
  }

  /** The calls `handleStartService` makes from the given state. */
  function StartServiceEffects(service: Option<BoundService>, options: Option<VpnOptions>, isBind: bool,
                               suspendInstalled: bool, tunnel: TunnelConfig.StartOutcome): seq<Effect>
  {
    if service.None? then BindEffects(isBind, options)
    else if options.None? then [RunStatePublished(Stop)]
    else StartedEffects(BoundStart(service.value.variant, tunnel), options.value, suspendInstalled)
  }

  /** The calls `handleStartService` makes once the bound service's `start` answered `r`. */
  function StartedEffects(r: TunnelConfig.StartOutcome, o: VpnOptions, suspendInstalled: bool): seq<Effect> {
    if UsableFd(r) then [RunStatePublished(Start)] + RunEffects(r.fd, o, suspendInstalled)
    else [RunStatePublished(Start), RunStatePublished(Stop)]
  }

  /** The run state `handleStartService` leaves behind. */
  function StartServiceState(service: Option<BoundService>, options: Option<VpnOptions>,
                             tunnel: TunnelConfig.StartOutcome, current: RunState): RunState
  {
    if service.None? then current
    else if options.None? then Stop
    else if UsableFd(BoundStart(service.value.variant, tunnel)) then Start
    else Stop
  }

  /**
   * `handleStartService` reaches START only with a bound service, options, and a
   * usable descriptor from it; the TUN is started with that descriptor and no
   * other; in every other case nothing starts the TUN.
   */
  lemma StartServiceOutcome(service: Option<BoundService>, options: Option<VpnOptions>, isBind: bool,
                            suspendInstalled: bool, tunnel: TunnelConfig.StartOutcome, current: RunState)
    ensures var es := StartServiceEffects(service, options, isBind, suspendInstalled, tunnel);
            && (StartServiceState(service, options, tunnel, current) == Start <==>
                  (service.None? && current == Start)
                  || (service.Some? && options.Some? && UsableFd(BoundStart(service.value.variant, tunnel))))
            && (forall fd :: StartTun(fd) in es ==>
                  service.Some? && options.Some? && BoundStart(service.value.variant, tunnel) == TunnelConfig.Fd(fd) && fd != 0)
            && (service.Some? && options.Some? && UsableFd(BoundStart(service.value.variant, tunnel)) ==>
                  StartTun(BoundStart(service.value.variant, tunnel).fd) in es)
  {
    var es := StartServiceEffects(service, options, isBind, suspendInstalled, tunnel);
    if service.Some? && options.Some? {
      var r := BoundStart(service.value.variant, tunnel);
      if UsableFd(r) {
        assert es[1] == StartTun(r.fd);
      }
    }
  }

  /** With the plain service bound, starting always falls back to STOP and never starts the TUN. */
  lemma PlainServiceStartStops(instance: nat, o: VpnOptions, isBind: bool, suspendInstalled: bool,
                               tunnel: TunnelConfig.StartOutcome, current: RunState)
    ensures StartServiceState(Some(BoundService(PlainVariant, instance)), Some(o), tunnel, current) == Stop
    ensures StartServiceEffects(Some(BoundService(PlainVariant, instance)), Some(o), isBind, suspendInstalled, tunnel)
            == [RunStatePublished(Start), RunStatePublished(Stop)]
  {
  }

  /** The calls `handleStop` makes when the session is not already stopped. */
  function StopEffects(suspendInstalled: bool, service: Option<BoundService>,
                       flutterEngine: Option<Engine>, serviceEngine: Option<Engine>): seq<Effect>
  {
    [RunStatePublished(Stop)] + StopCalls(suspendInstalled, service, flutterEngine, serviceEngine)
  }

  /** What `handleStop` calls after publishing STOP. */
  function StopCalls(suspendInstalled: bool, service: Option<BoundService>,
                     flutterEngine: Option<Engine>, serviceEngine: Option<Engine>): seq<Effect>
  {
    (if suspendInstalled then [SuspendUninstalled] else []) + [StopTun]
      + (if service.Some? then [ServiceStop(service.value.instance)] else [])
      + (if flutterEngine.None? && serviceEngine.Some? then [EngineDestroyed] else [])
  }

  /** `handleStop` stops the TUN before it stops the bound service, and stops each exactly once. */
  lemma StopOrder(suspendInstalled: bool, service: Option<BoundService>,
                  flutterEngine: Option<Engine>, serviceEngine: Option<Engine>)
    requires service.Some?
    ensures var es := StopEffects(suspendInstalled, service, flutterEngine, serviceEngine);
            exists i, j :: 0 <= i < j < |es| && es[i] == StopTun && es[j] == ServiceStop(service.value.instance)
              && (forall k :: 0 <= k < |es| && es[k] == StopTun ==> k == i)
              && (forall k :: 0 <= k < |es| && es[k] == ServiceStop(service.value.instance) ==> k == j)
  {
    var s := ServiceStop(service.value.instance);
    var pre := [RunStatePublished(Stop)] + (if suspendInstalled then [SuspendUninstalled] else []);
    var post := if flutterEngine.None? && serviceEngine.Some? then [EngineDestroyed] else [];
    var es := StopEffects(suspendInstalled, service, flutterEngine, serviceEngine);
    assert es == pre + [StopTun, s] + post;
    var i, j := |pre|, |pre| + 1;
    assert es[i] == StopTun && es[j] == s;
    forall k | 0 <= k < |es| && (es[k] == StopTun || es[k] == s) ensures k == i || k == j {
    }
  }

  /** The calls `handleSmartStop` makes when the session is not already stopped: never a service stop. */
  function SmartStopEffects(suspendInstalled: bool): seq<Effect> {
    [RunStatePublished(Stop)] + (if suspendInstalled then [SuspendUninstalled] else []) + [StopTun, ForegroundRefreshScheduled]
  }

  /**
   * The calls `handleSmartResume` makes from a non-START state, given the options it
   * stores and the tunnel service's answer to `start`.
   */
  function SmartResumeEffects(service: Option<BoundService>, o: VpnOptions, isBind: bool,
                              suspendInstalled: bool, tunnel: TunnelConfig.StartOutcome): seq<Effect>
  {
    if service.None? then BindEffects(isBind, Some(o))
    else ResumedEffects(BoundStart(service.value.variant, tunnel), o, suspendInstalled)
  }

  /**
   * The calls `handleSmartResume` makes once the bound service's `start` answered `r`:
   * START, then the TUN with whatever descriptor came back; nothing more when `start`
   * threw, which leaves the state at START without a TUN.
   */
  function ResumedEffects(r: TunnelConfig.StartOutcome, o: VpnOptions, suspendInstalled: bool): seq<Effect> {
    if r.Threw? then [RunStatePublished(Start)]
    else [RunStatePublished(Start)] + RunEffects(r.fd, o, suspendInstalled)
  }

  /**
   * Smart resume does not check the descriptor: with the plain service bound it
   * starts the TUN with descriptor 0, a value `handleStartService` refuses.
   */
  lemma SmartResumeSkipsFdCheck(instance: nat, o: VpnOptions, isBind: bool, suspendInstalled: bool,
                                tunnel: TunnelConfig.StartOutcome)
    ensures StartTun(0) in SmartResumeEffects(Some(BoundService(PlainVariant, instance)), o, isBind, suspendInstalled, tunnel)
    ensures StartTun(0) !in StartServiceEffects(Some(BoundService(PlainVariant, instance)), Some(o), isBind, suspendInstalled, tunnel)
  {
    assert SmartResumeEffects(Some(BoundService(PlainVariant, instance)), o, isBind, suspendInstalled, tunnel)[1] == StartTun(0);
  }

  /** The DNS servers each network reports; a network the platform reports nothing for has none. */
  function DnsLists(networks: seq<Network>, dnsOf: map<Network, seq<string>>): (lists: seq<seq<string>>)
    ensures |lists| == |networks|
    ensures forall i :: 0 <= i < |networks| ==> lists[i] == if networks[i] in dnsOf then dnsOf[networks[i]] else []
  {
    seq(|networks|, i requires 0 <= i < |networks| => if networks[i] in dnsOf then dnsOf[networks[i]] else [])
  }

  /** `networks.remove(n)` on an insertion-ordered set. */
  function Without(networks: seq<Network>, n: Network): (r: seq<Network>)
    ensures forall m :: m in r <==> m in networks && m != n
    decreases |networks|
  {
    if networks == [] then []
    else (if networks[0] == n then [] else [networks[0]]) + Without(networks[1..], n)
  }

  /** No network is listed twice. */
  predicate NoRepeats(networks: seq<Network>) {
    forall i, j :: 0 <= i < j < |networks| ==> networks[i] != networks[j]
  }

  /** The tail of a list without repetitions has none, and lacks the head. */
  lemma TailDistinct(networks: seq<Network>)
    requires networks != [] && NoRepeats(networks)
    ensures NoRepeats(networks[1..]) && networks[0] !in networks[1..]
  {
    var tail := networks[1..];
    forall i, j | 0 <= i < j < |tail| ensures tail[i] != tail[j] {
      assert tail[i] == networks[i + 1] && tail[j] == networks[j + 1];
    }
    forall k | 0 <= k < |tail| ensures tail[k] != networks[0] {
      assert tail[k] == networks[k + 1];
    }
  }

  /** A network not in a list without repetitions can be put in front of it. */
  lemma PrependDistinct(n: Network, networks: seq<Network>)
    requires NoRepeats(networks) && n !in networks
    ensures NoRepeats([n] + networks)
  {
    var r := [n] + networks;
    forall i, j | 0 <= i < j < |r| ensures r[i] != r[j] {
      assert r[j] == networks[j - 1];
      if i > 0 {
        assert r[i] == networks[i - 1];
      }
    }
  }

  /** Removing a network from a list without repetitions leaves one without repetitions. */
  lemma {:induction false} WithoutKeepsDistinct(networks: seq<Network>, n: Network)
    requires NoRepeats(networks)
    ensures NoRepeats(Without(networks, n))
    decreases |networks|
  {
    if networks != [] {
      var tail := networks[1..];
      TailDistinct(networks);
      WithoutKeepsDistinct(tail, n);
      var rest := Without(tail, n);
      if networks[0] == n {
        assert Without(networks, n) == rest;
      } else {
        assert networks[0] !in rest;
        PrependDistinct(networks[0], rest);
        assert Without(networks, n) == [networks[0]] + rest;
      }
    }
  }

  /** The plugin's fields, as one value. */
  datatype PluginFields = PluginFields(
    bettBoxService: Option<BoundService>,
    options: Option<VpnOptions>,
    isBind: bool,
    lastStartForegroundParams: Option<StartForegroundParams>,
    uidPageNameMap: map<int, string>,
    suspendInstalled: bool,
    quickResponseEnabled: bool,
    disconnectCount: int,
    disconnectWindowStart: int,
    lastNetworkType: Option<int>,
    networks: seq<Network>)

  class VpnPlugin {
    /** The process-wide state the plugin reads and updates. */
    const g: GlobalState
    /** `Build.VERSION.SDK_INT`. */
    const sdk: int

    var bettBoxService: Option<BoundService>
    var options: Option<VpnOptions>
    var isBind: bool
    var lastStartForegroundParams: Option<StartForegroundParams>
    var uidPageNameMap: map<int, string>
    /** Whether a suspend module is installed (`suspendModule != null`). */
    var suspendInstalled: bool
    var quickResponseEnabled: bool
    var disconnectCount: int
    var disconnectWindowStart: int
    var lastNetworkType: Option<int>
    /** The available non-VPN networks, in the order they appeared. */
    var networks: seq<Network>

    constructor (g: GlobalState, sdk: int)
      ensures this.g == g && this.sdk == sdk
      ensures Fields() == PluginFields(None, None, false, None, map[], false, false, 0, 0, None, [])
      ensures Valid()
    {
      this.g := g;
      this.sdk := sdk;
      bettBoxService := None;
      options := None;
      isBind := false;
      lastStartForegroundParams := None;
      uidPageNameMap := map[];
      suspendInstalled := false;
      quickResponseEnabled := false;
      disconnectCount := 0;
      disconnectWindowStart := 0;
      lastNetworkType := None;
      networks := [];
    }

    function Fields(): PluginFields
      reads this
    {
      PluginFields(bettBoxService, options, isBind, lastStartForegroundParams, uidPageNameMap, suspendInstalled,
                   quickResponseEnabled, disconnectCount, disconnectWindowStart, lastNetworkType, networks)
    }

    /** The limiter never counts more than two stops, and a network is listed once. */
    predicate Valid()
      reads this
    {
      && 0 <= disconnectCount <= MaxDisconnectsInWindow
      && NoRepeats(networks)
    }

    // -------------------------------------------------------------------------
    // Service binding

    method BindService()
      modifies g`trace
      ensures g.trace == old(g.trace) + BindEffects(isBind, options)
    {
      if isBind {
        g.trace := g.trace + [Unbind];
      }
      g.trace := g.trace + [Bind(VariantFor(options))];
    }

    /** The binding is up: remember the service and start it. */
    method OnServiceConnected(service: BoundService, tunnel: TunnelConfig.StartOutcome)
      requires Valid()
      modifies this`bettBoxService, this`isBind, this`lastStartForegroundParams, this`suspendInstalled, g`currentRunState, g`published, g`trace
      ensures Valid()
      ensures g.trace == old(g.trace) + StartServiceEffects(Some(service), old(options), true, old(suspendInstalled), tunnel)
      ensures g.CurrentStatus() == old(g.CurrentStatus()).(
                currentRunState := StartServiceState(Some(service), old(options), tunnel, old(g.currentRunState)),
                published := StartServiceState(Some(service), old(options), tunnel, old(g.currentRunState)))
      ensures Fields() == old(Fields()).(
                bettBoxService := Some(service), isBind := true,
                lastStartForegroundParams := if old(options).Some? then None else old(lastStartForegroundParams),
                suspendInstalled := old(suspendInstalled)
                  || (old(options).Some? && old(options).value.dozeSuspend && UsableFd(BoundStart(service.variant, tunnel))))
    {
      isBind := true;
      bettBoxService := Some(service);
      HandleStartService(tunnel);
    }

    /** The binding dropped: forget the service. */
    method OnServiceDisconnected()
      modifies this
      ensures Fields() == old(Fields()).(bettBoxService := None, isBind := false)
    {
      isBind := false;
      bettBoxService := None;
    }

    /**
     * The plugin joins an engine: network tracking restarts from an empty list and,
     * when a session is running without a service and options are known, the
     * service is bound again.
     */
    method OnAttachedToEngine()
      requires Valid()
      modifies this, g`trace
      ensures Valid()
      ensures Fields() == old(Fields()).(networks := [])
      ensures g.trace == old(g.trace) +
                if g.currentRunState == Start && old(bettBoxService).None? && old(options).Some? then BindEffects(isBind, options) else []
    {
      networks := [];
      if g.currentRunState == Start && bettBoxService.None? {
        if options.Some? {
          BindService();
        }
      }
    }

    /** The plugin leaves its engine: the network list empties and the UI is told there are no DNS servers. */
    method OnDetachedFromEngine()
      requires Valid()
      modifies this, g`trace
      ensures Valid()
      ensures Fields() == old(Fields()).(networks := [])
      ensures g.trace == old(g.trace) + [DnsChanged("")]
    {
      networks := [];
      OnUpdateNetwork(map[]);
    }

    // -------------------------------------------------------------------------
    // Starting

    /**
     * `handleStart`: publishes the DNS servers, stores the options (dropping the
     * service when the variant they need changes) and starts the tunnel or the plain
     * service; it always answers true.
     */
    method HandleStart(o: VpnOptions, tunnel: TunnelConfig.StartOutcome, dnsOf: map<Network, seq<string>>) returns (r: bool)
      requires Valid()
      modifies this`bettBoxService, this`options, this`lastStartForegroundParams, this`suspendInstalled, g`currentRunState, g`published, g`trace
      ensures Valid()
      ensures r
      ensures var service := if old(options).Some? && old(options).value.enable == o.enable then old(bettBoxService) else None;
              && bettBoxService == service && options == Some(o)
              && isBind == old(isBind) && networks == old(networks) && uidPageNameMap == old(uidPageNameMap)
              && (o.enable ==>
                    && g.trace == old(g.trace) + [DnsChanged(DnsCsv(DnsLists(old(networks), dnsOf)))]
                                 + (if old(g.AppPlugin()).None? then [RunStatePublished(Stop)] else [PermissionRequested, SafetyTimerArmed])
                    && g.currentRunState == (if old(g.AppPlugin()).None? then Stop else old(g.currentRunState)))
              && (!o.enable ==>
                    && g.trace == old(g.trace) + [DnsChanged(DnsCsv(DnsLists(old(networks), dnsOf)))]
                                 + StartServiceEffects(service, Some(o), old(isBind), old(suspendInstalled), tunnel)
                    && g.currentRunState == StartServiceState(service, Some(o), tunnel, old(g.currentRunState)))
    {
      OnUpdateNetwork(dnsOf);
      ApplyOptions(o, tunnel);
      return true;
    }

    /**
     * The part of `handleStart` after the DNS report: the options are stored, the
     * bound service is forgotten when the mode changed, and the mode's start runs.
     */
    method ApplyOptions(o: VpnOptions, tunnel: TunnelConfig.StartOutcome)
      requires Valid()
      modifies this`bettBoxService, this`options, this`lastStartForegroundParams, this`suspendInstalled, g`currentRunState, g`published, g`trace
      ensures Valid()
      ensures var service := if old(options).Some? && old(options).value.enable == o.enable then old(bettBoxService) else None;
              && bettBoxService == service && options == Some(o)
              && (o.enable ==>
                    && g.trace == old(g.trace) + (if g.AppPlugin().None? then [RunStatePublished(Stop)] else [PermissionRequested, SafetyTimerArmed])
                    && g.currentRunState == (if g.AppPlugin().None? then Stop else old(g.currentRunState)))
              && (!o.enable ==>
                    && g.trace == old(g.trace) + StartServiceEffects(service, Some(o), isBind, old(suspendInstalled), tunnel)
                    && g.currentRunState == StartServiceState(service, Some(o), tunnel, old(g.currentRunState)))
    {
      if options.None? || options.value.enable != o.enable {
        bettBoxService := None;
      }
      options := Some(o);
      if o.enable {
        HandleStartVpn();
      } else {
        HandleStartService(tunnel);
      }
    }

    /** Without an app plugin the start fails to STOP; otherwise permission is requested and the 5 s watchdog armed. */
    method HandleStartVpn()
      modifies g`currentRunState, g`published, g`trace
      ensures g.AppPlugin().None? ==> g.currentRunState == Stop && g.published == Stop
                                      && g.trace == old(g.trace) + [RunStatePublished(Stop)]
      ensures g.AppPlugin().Some? ==> g.currentRunState == old(g.currentRunState) && g.published == old(g.published)
                                      && g.trace == old(g.trace) + [PermissionRequested, SafetyTimerArmed]
    {
      if g.AppPlugin().None? {
        g.UpdateRunState(Stop);
        return;
      }
      g.trace := g.trace + [PermissionRequested, SafetyTimerArmed];
    }

    /** The user granted the VPN permission. */
    method OnPermissionGranted(tunnel: TunnelConfig.StartOutcome)
      requires Valid()
      modifies this`lastStartForegroundParams, this`suspendInstalled, g`currentRunState, g`published, g`trace
      ensures Valid()
      ensures g.trace == old(g.trace) + StartServiceEffects(old(bettBoxService), old(options), old(isBind), old(suspendInstalled), tunnel)
      ensures g.currentRunState == StartServiceState(old(bettBoxService), old(options), tunnel, old(g.currentRunState))
    {
      HandleStartService(tunnel);
    }

    /**
     * The watchdog fires 5 s after a start request: a session still PENDING is reset
     * to STOP. It does not know which request armed it.
     */
    method SafetyTimerFired()
      modifies g`currentRunState, g`published, g`trace
      ensures old(g.currentRunState) == Pending ==>
                g.currentRunState == Stop && g.published == Stop && g.trace == old(g.trace) + [RunStatePublished(Stop)]
      ensures old(g.currentRunState) != Pending ==> g.currentRunState == old(g.currentRunState) && g.published == old(g.published)
                                                    && g.trace == old(g.trace)
    {
      if g.currentRunState == Pending {
        g.UpdateRunState(Stop);
      }
    }

    /**
     * `handleStartService`: binds when no service is bound; fails to STOP without
     * options; otherwise moves to START, clears the last notification parameters and
     * starts the service, falling back to STOP when it yields no usable descriptor.
     */
    method HandleStartService(tunnel: TunnelConfig.StartOutcome)
      requires Valid()
      modifies this`lastStartForegroundParams, this`suspendInstalled, g`currentRunState, g`published, g`trace
      ensures Valid()
      ensures g.trace == old(g.trace) + old(StartServiceEffects(bettBoxService, options, isBind, suspendInstalled, tunnel))
      ensures g.CurrentStatus() == old(g.CurrentStatus()).(
                currentRunState := old(StartServiceState(bettBoxService, options, tunnel, g.currentRunState)),
                published := if old(bettBoxService).None? then old(g.published)
                             else old(StartServiceState(bettBoxService, options, tunnel, g.currentRunState)))
      ensures Fields() == old(Fields()).(
                lastStartForegroundParams := if old(bettBoxService).Some? && old(options).Some? then None
                                             else old(lastStartForegroundParams),
                suspendInstalled := old(suspendInstalled)
                  || (old(bettBoxService).Some? && old(options).Some? && old(options).value.dozeSuspend
                      && UsableFd(BoundStart(old(bettBoxService).value.variant, tunnel))))
    {
      if bettBoxService.None? {
        BindService();
        return;
      }
      if options.None? {
        g.UpdateRunState(Stop);
        return;
      }
      StartBoundService(options.value, BoundStart(bettBoxService.value.variant, tunnel));
    }

    /**
     * The rest of `handleStartService` once the bound service's `start` answered `r`:
     * START and the notification parameters cleared, then STOP again without a usable
     * descriptor; with one, the TUN starts and the suspend module is installed if asked.
     */
    method StartBoundService(o: VpnOptions, r: TunnelConfig.StartOutcome)
      modifies this`lastStartForegroundParams, this`suspendInstalled, g`currentRunState, g`published, g`trace
      ensures g.trace == old(g.trace) + StartedEffects(r, o, old(suspendInstalled))
      ensures g.CurrentStatus() == old(g.CurrentStatus()).(currentRunState := if UsableFd(r) then Start else Stop,
                                                          published := if UsableFd(r) then Start else Stop)
      ensures Fields() == old(Fields()).(lastStartForegroundParams := None,
                                         suspendInstalled := old(suspendInstalled) || (o.dozeSuspend && UsableFd(r)))
    {
      g.UpdateRunState(Start);
      lastStartForegroundParams := None;
      if !UsableFd(r) {
        g.UpdateRunState(Stop);
        return;
      }
      g.trace := g.trace + [StartTun(r.fd), ForegroundRefreshScheduled];
      if o.dozeSuspend {
        InstallSuspendModule();
      }
    }

    method InstallSuspendModule()
      modifies this`suspendInstalled, g`trace
      ensures suspendInstalled
      ensures g.trace == old(g.trace) + InstallEffects(old(suspendInstalled))
    {
      if suspendInstalled {
        g.trace := g.trace + [SuspendUninstalled];
      }
      g.trace := g.trace + [SuspendInstalled];
      suspendInstalled := true;
    }

    method UninstallSuspendModule()
      modifies this`suspendInstalled, g`trace
      ensures !suspendInstalled
      ensures g.trace == old(g.trace) + if old(suspendInstalled) then [SuspendUninstalled] else []
    {
      if suspendInstalled {
        g.trace := g.trace + [SuspendUninstalled];
        suspendInstalled := false;
      }
    }

    // -------------------------------------------------------------------------
    // Stopping, pausing, resuming

    /**
     * `handleStop`: nothing when already STOP; otherwise STOP, the notification
     * parameters are forgotten, the suspend module goes, the TUN stops, then the
     * service, and the service engine is released if no UI holds it.
     */
    method HandleStop()
      requires Valid()
      modifies this`lastStartForegroundParams, this`suspendInstalled, g`currentRunState, g`published, g`trace, g`serviceEngine
      ensures Valid()
      ensures old(g.currentRunState) == Stop ==>
                Fields() == old(Fields()) && g.CurrentStatus() == old(g.CurrentStatus()) && g.trace == old(g.trace)
      ensures old(g.currentRunState) != Stop ==>
                && Fields() == old(Fields()).(lastStartForegroundParams := None, suspendInstalled := false)
                && g.CurrentStatus() == old(g.CurrentStatus()).(currentRunState := Stop, published := Stop,
                     serviceEngine := if old(g.flutterEngine).None? then None else old(g.serviceEngine))
                && g.trace == old(g.trace) + StopEffects(old(suspendInstalled), old(bettBoxService), old(g.flutterEngine), old(g.serviceEngine))
    {
      if g.currentRunState == Stop {
        return;
      }
      g.UpdateRunState(Stop);
      lastStartForegroundParams := None;
      StopTunAndService();
    }

    /** The second half of `handleStop`: suspend module, TUN, service, service engine. */
    method StopTunAndService()
      modifies this`suspendInstalled, g`trace, g`serviceEngine
      ensures !suspendInstalled
      ensures g.serviceEngine == if g.flutterEngine.None? then None else old(g.serviceEngine)
      ensures g.trace == old(g.trace) + StopCalls(old(suspendInstalled), bettBoxService, g.flutterEngine, old(g.serviceEngine))
    {
      UninstallSuspendModule();
      g.trace := g.trace + [StopTun] + (if bettBoxService.Some? then [ServiceStop(bettBoxService.value.instance)] else []);
      g.HandleTryDestroy();
    }

    /**
     * `handleSmartStop`: like a stop, but the service and its notification stay; the
     * session is marked as smart-stopped and the notification refreshed.
     */
    method HandleSmartStop()
      requires Valid()
      modifies this`suspendInstalled, g`currentRunState, g`published, g`trace, g`isSmartStopped
      ensures Valid()
      ensures old(g.currentRunState) == Stop ==>
                Fields() == old(Fields()) && g.CurrentStatus() == old(g.CurrentStatus()) && g.trace == old(g.trace)
      ensures old(g.currentRunState) != Stop ==>
                && Fields() == old(Fields()).(suspendInstalled := false)
                && g.CurrentStatus() == old(g.CurrentStatus()).(currentRunState := Stop, published := Stop, isSmartStopped := true)
                && g.trace == old(g.trace) + SmartStopEffects(old(suspendInstalled))
    {
      if g.currentRunState == Stop {
        return;
      }
      g.UpdateRunState(Stop);
      g.isSmartStopped := true;
      UninstallSuspendModule();
      g.trace := g.trace + [StopTun, ForegroundRefreshScheduled];
    }

    /**
     * `handleSmartResume`: nothing when START. Otherwise the smart stop is cleared and
     * the options stored; without a service it rebinds, with one it goes straight to
     * START and starts the TUN with whatever descriptor `start` gave. `returned` is
     * false when `start` threw, which propagates to the caller.
     */
    method HandleSmartResume(o: VpnOptions, tunnel: TunnelConfig.StartOutcome) returns (returned: bool)
      requires Valid()
      modifies this`options, this`lastStartForegroundParams, this`suspendInstalled, g`currentRunState, g`published, g`trace, g`isSmartStopped
      ensures Valid()
      ensures returned <==> !(old(g.currentRunState) != Start && old(bettBoxService).Some?
                              && BoundStart(old(bettBoxService).value.variant, tunnel).Threw?)
      ensures old(g.currentRunState) == Start ==>
                Fields() == old(Fields()) && g.CurrentStatus() == old(g.CurrentStatus()) && g.trace == old(g.trace)
      ensures old(g.currentRunState) != Start && old(bettBoxService).None? ==>
                && Fields() == old(Fields()).(options := Some(o))
                && g.CurrentStatus() == old(g.CurrentStatus()).(isSmartStopped := false)
                && g.trace == old(g.trace) + BindEffects(old(isBind), Some(o))
      ensures old(g.currentRunState) != Start && old(bettBoxService).Some? ==>
                var r := BoundStart(old(bettBoxService).value.variant, tunnel);
                && Fields() == old(Fields()).(options := Some(o), lastStartForegroundParams := None,
                                              suspendInstalled := old(suspendInstalled) || (r.Fd? && o.dozeSuspend))
                && g.CurrentStatus() == old(g.CurrentStatus()).(currentRunState := Start, published := Start, isSmartStopped := false)
                && g.trace == old(g.trace) + SmartResumeEffects(old(bettBoxService), o, old(isBind), old(suspendInstalled), tunnel)
    {
      if g.currentRunState == Start {
        return true;
      }
      g.isSmartStopped := false;
      options := Some(o);
      if bettBoxService.None? {
        BindService();
        return true;
      }
      returned := ResumeBoundService(o, BoundStart(bettBoxService.value.variant, tunnel));
    }

    /**
     * The rest of `handleSmartResume` once the bound service's `start` answered `r`:
     * START at once, then the TUN with the descriptor and the suspend module if asked;
     * a throw from `start` ends it there.
     */
    method ResumeBoundService(o: VpnOptions, r: TunnelConfig.StartOutcome) returns (returned: bool)
      modifies this`lastStartForegroundParams, this`suspendInstalled, g`currentRunState, g`published, g`trace
      ensures returned <==> r.Fd?
      ensures g.trace == old(g.trace) + ResumedEffects(r, o, old(suspendInstalled))
      ensures g.CurrentStatus() == old(g.CurrentStatus()).(currentRunState := Start, published := Start)
      ensures Fields() == old(Fields()).(lastStartForegroundParams := None,
                                         suspendInstalled := old(suspendInstalled) || (r.Fd? && o.dozeSuspend))
    {
      g.UpdateRunState(Start);
      lastStartForegroundParams := None;
      if r.Threw? {
        return false;
      }
      g.trace := g.trace + [StartTun(r.fd), ForegroundRefreshScheduled];
      if o.dozeSuspend {
        InstallSuspendModule();
      }
      return true;
    }

    // -------------------------------------------------------------------------
    // Networks and quick response

    /** `onUpdateNetwork`: the UI is sent the distinct DNS servers of all tracked networks. */
    method OnUpdateNetwork(dnsOf: map<Network, seq<string>>)
      modifies g`trace
      ensures g.trace == old(g.trace) + [DnsChanged(DnsCsv(DnsLists(networks, dnsOf)))]
    {
      g.trace := g.trace + [DnsChanged(DnsCsv(DnsLists(networks, dnsOf)))];
    }

    method SetQuickResponse(enabled: bool)
      modifies this`quickResponseEnabled
      ensures quickResponseEnabled == enabled
    {
      quickResponseEnabled := enabled;
    }

    /** The UI marks or unmarks the session as smart-stopped. */
    method SetSmartStopped(value: bool)
      modifies g`isSmartStopped
      ensures g.isSmartStopped == value
    {
      g.isSmartStopped := value;
    }

    /**
     * `handleNetworkChange`: only with quick response on and a session at START. The
     * first reading records the type; a change of type records it and asks the
     * limiter, which may force a stop; an unchanged type does nothing.
     */
    method HandleNetworkChange(now: int, active: ActiveNetwork)
      requires Valid()
      modifies this`lastNetworkType, this`disconnectCount, this`disconnectWindowStart, this`lastStartForegroundParams, this`suspendInstalled, g`currentRunState, g`published, g`trace, g`serviceEngine
      ensures Valid()
      ensures !old(quickResponseEnabled) || old(g.currentRunState) != Start || old(lastNetworkType) == Some(NetworkType(active)) ==>
                Fields() == old(Fields()) && g.CurrentStatus() == old(g.CurrentStatus()) && g.trace == old(g.trace)
      ensures old(quickResponseEnabled) && old(g.currentRunState) == Start && old(lastNetworkType).None? ==>
                Fields() == old(Fields()).(lastNetworkType := Some(NetworkType(active)))
                && g.CurrentStatus() == old(g.CurrentStatus()) && g.trace == old(g.trace)
      ensures old(quickResponseEnabled) && old(g.currentRunState) == Start && old(lastNetworkType).Some?
              && old(lastNetworkType) != Some(NetworkType(active)) ==>
                var d := QuickStep(QuickWindow(old(disconnectCount), old(disconnectWindowStart)), now);
                && Fields() == old(Fields()).(
                     lastNetworkType := Some(NetworkType(active)),
                     disconnectCount := d.window.count, disconnectWindowStart := d.window.start,
                     lastStartForegroundParams := if d.stop then None else old(lastStartForegroundParams),
                     suspendInstalled := if d.stop then false else old(suspendInstalled))
                && (d.stop ==> g.currentRunState == Stop
                               && g.trace == old(g.trace) + StopEffects(old(suspendInstalled), old(bettBoxService), old(g.flutterEngine), old(g.serviceEngine)))
                && (!d.stop ==> g.CurrentStatus() == old(g.CurrentStatus()) && g.trace == old(g.trace))
    {
      if !quickResponseEnabled || g.currentRunState != Start {
        return;
      }
      var current := NetworkType(active);
      if lastNetworkType.None? {
        lastNetworkType := Some(current);
        return;
      }
      if current != lastNetworkType.value {
        lastNetworkType := Some(current);
        var d := QuickStep(QuickWindow(disconnectCount, disconnectWindowStart), now);
        disconnectCount := d.window.count;
        disconnectWindowStart := d.window.start;
        if d.stop {
          HandleStop();
        }
      }
    }

    /** A network became available: it is tracked, the DNS list resent, and the change handled. */
    method OnAvailable(n: Network, dnsOf: map<Network, seq<string>>, now: int, active: ActiveNetwork)
      requires Valid()
      modifies this`networks, this`lastNetworkType, this`disconnectCount, this`disconnectWindowStart, this`lastStartForegroundParams, this`suspendInstalled, g`currentRunState, g`published, g`trace, g`serviceEngine
      ensures Valid()
      ensures networks == if n in old(networks) then old(networks) else old(networks) + [n]
    {
      if n !in networks {
        networks := networks + [n];
      }
      OnUpdateNetwork(dnsOf);
      HandleNetworkChange(now, active);
    }

    /** A network was lost: it is no longer tracked, the DNS list resent, and the change handled. */
    method OnLost(n: Network, dnsOf: map<Network, seq<string>>, now: int, active: ActiveNetwork)
      requires Valid()
      modifies this`networks, this`lastNetworkType, this`disconnectCount, this`disconnectWindowStart, this`lastStartForegroundParams, this`suspendInstalled, g`currentRunState, g`published, g`trace, g`serviceEngine
      ensures Valid()
      ensures networks == Without(old(networks), n)
    {
      WithoutKeepsDistinct(networks, n);
      networks := Without(networks, n);
      OnUpdateNetwork(dnsOf);
      HandleNetworkChange(now, active);
    }

    /**
     * `getLocalIpAddresses`: the IPv4 host addresses of the tracked networks' link
     * addresses, loopback excluded, network by network.
     */
    method GetLocalIpAddresses(links: map<Network, seq<LinkAddress>>) returns (ips: seq<string>)
      ensures ips == LocalIpv4(networks, links)
    {
      ips := [];
      var i := 0;
      while i < |networks|
        invariant 0 <= i <= |networks|
        invariant ips == LocalIpv4(networks[..i], links)
      {
        var n := networks[i];
        assert networks[..i + 1][..i] == networks[..i];
        if n in links {
          var addrs := links[n];
          var j := 0;
          while j < |addrs|
            invariant 0 <= j <= |addrs|
            invariant ips == LocalIpv4(networks[..i], links) + Ipv4Of(addrs[..j])
          {
            var a := addrs[j];
            assert addrs[..j + 1][..j] == addrs[..j];
            if a.address.Some? && !a.address.value.isLoopback {
              var host := a.address.value.hostAddress;
              if host.Some? && ':' !in host.value {
                ips := ips + [host.value];
              }
            }
            j := j + 1;
          }
          assert addrs[..j] == addrs;
        }
        i := i + 1;
      }
      assert networks[..i] == networks;
    }

    // -------------------------------------------------------------------------
    // Notification

    /**
     * `startForeground`: only while START or smart-stopped. The parameters are the
     * UI's answer (`None` for a timeout or an unparsable one), else the last ones,
     * else empty; they are pushed to the bound service only when they changed.
     */
    method StartForeground(fetched: Option<StartForegroundParams>)
      modifies this`lastStartForegroundParams, g`trace
      ensures !(old(g.currentRunState) == Start || g.isSmartStopped) ==>
                lastStartForegroundParams == old(lastStartForegroundParams) && g.trace == old(g.trace)
      ensures old(g.currentRunState) == Start || g.isSmartStopped ==>
                var chosen := ChooseParams(fetched, old(lastStartForegroundParams));
                && lastStartForegroundParams == Some(chosen)
                && g.trace == old(g.trace) +
                     if ParamsChanged(chosen, old(lastStartForegroundParams)) && bettBoxService.Some?
                     then [Notify(bettBoxService.value.instance, chosen)] else []
    {
      if !(g.currentRunState == Start || g.isSmartStopped) {
        return;
      }
      var chosen := ChooseParams(fetched, lastStartForegroundParams);
      if ParamsChanged(chosen, lastStartForegroundParams) {
        lastStartForegroundParams := Some(chosen);
        if bettBoxService.Some? {
          g.trace := g.trace + [Notify(bettBoxService.value.instance, chosen)];
        }
      }
    }

    /** Rebuilds the notification (for a new icon) from the last parameters, if any. */
    method UpdateNotificationIcon()
      modifies g`trace
      ensures g.trace == old(g.trace) +
                if lastStartForegroundParams.Some? && bettBoxService.Some?
                then [NotificationBuilderReset(bettBoxService.value.instance),
                      Notify(bettBoxService.value.instance, lastStartForegroundParams.value)]
                else []
    {
      if lastStartForegroundParams.Some? && bettBoxService.Some? {
        var i := bettBoxService.value.instance;
        g.trace := g.trace + [NotificationBuilderReset(i), Notify(i, lastStartForegroundParams.value)];
      }
    }

    /** `requestGc`: asks the UI to collect garbage (on memory pressure in either service). */
    method RequestGc()
      modifies g`trace
      ensures g.trace == old(g.trace) + [GcRequested]
    {
      g.trace := g.trace + [GcRequested];
    }

    // -------------------------------------------------------------------------
    // Callbacks from the Go core

    /** `protect(fd)`: only the tunnel service can protect a socket. */
    method Protect(platformProtects: bool) returns (protected: bool)
      ensures protected <==> bettBoxService.Some? && bettBoxService.value.variant == TunnelVariant && platformProtects
    {
      protected := bettBoxService.Some? && bettBoxService.value.variant == TunnelVariant && platformProtects;
    }

    /**
     * `resolverProcess`: the package owning a connection. Uid -1 answers "" and
     * touches nothing; a cached uid answers from the cache with no lookup; otherwise
     * the package manager, when there is one, is asked once, and the answer is cached. `None` means the
     * lookup threw (an empty package array), leaving the cache as it was.
     */
    method ResolverProcess(ownerUid: Option<int>, uid: int, answer: PackagesAnswer) returns (name: Option<string>)
      modifies this`uidPageNameMap, g`trace
      ensures var next := NextUid(sdk, ownerUid, uid);
              && (next == -1 ==> name == Some("") && uidPageNameMap == old(uidPageNameMap) && g.trace == old(g.trace))
              && (next != -1 && next in old(uidPageNameMap) ==>
                    name == Some(old(uidPageNameMap)[next]) && uidPageNameMap == old(uidPageNameMap) && g.trace == old(g.trace))
              && (next != -1 && next !in old(uidPageNameMap) ==>
                    && name == PackageName(answer)
                    && g.trace == old(g.trace) + (if answer.NoManager? then [] else [PackageLookup(next)])
                    && uidPageNameMap == if name.Some? then old(uidPageNameMap)[next := name.value] else old(uidPageNameMap))
              && (next != -1 && name.Some? ==> next in uidPageNameMap && uidPageNameMap[next] == name.value)
    {
      var next := NextUid(sdk, ownerUid, uid);
      if next == -1 {
        return Some("");
      }
      if next !in uidPageNameMap {
        if !answer.NoManager? {
          g.trace := g.trace + [PackageLookup(next)];
        }
        var looked := PackageName(answer);
        if looked.None? {
          return None;
        }
        uidPageNameMap := uidPageNameMap[next := looked.value];
      }
      return Some(uidPageNameMap[next]);
    }
  }
}
