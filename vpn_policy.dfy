/**
 * The deterministic decisions the VPN plugin takes on values: which service start
 * result a binding yields, the quick-response rate limiter, the network type, the
 * foreground-notification parameters, the uid a connection is attributed to, the
 * DNS list sent to the UI and the local IPv4 addresses.
 */
module VpnPolicy {
  import opened Wrappers
  import opened Models
  import opened Lifecycle
  import TunnelConfig
  import opened Sequences

  /**
   * What the bound service's `start(options)` answers, given `tunnel`, the tunnel
   * service's answer for those options (`TunnelConfig.Outcome`): the plain service
   * always answers 0.
   */
  function BoundStart(variant: Variant, tunnel: TunnelConfig.StartOutcome): TunnelConfig.StartOutcome {
    if variant == TunnelVariant then tunnel else TunnelConfig.Fd(0)
  }

  /** The descriptor `handleStartService` accepts: present and not 0. */
  predicate UsableFd(r: TunnelConfig.StartOutcome) {
    r.Fd? && r.fd != 0
  }

  /** The plain service can never produce a usable descriptor, whatever the options. */
  lemma PlainServiceNeverUsable(tunnel: TunnelConfig.StartOutcome)
    ensures !UsableFd(BoundStart(PlainVariant, tunnel))
  {
  }

  /** The tunnel service yields a usable descriptor exactly when the whole plan went through and `establish()` gave a non-zero one. */
  lemma TunnelServiceUsable(o: VpnOptions, p: TunnelConfig.TunPlatform)
    ensures UsableFd(BoundStart(TunnelVariant, TunnelConfig.Outcome(o, p))) <==>
              !TunnelConfig.Plan(o, p).threw && p.establishedFd.Some? && p.establishedFd.value != 0
  {
  }

  // ---------------------------------------------------------------------------
  // Quick response

  const DisconnectWindowMs := 5000
  const MaxDisconnectsInWindow := 2

  /** The rate limiter's state: forced stops counted since the window started at `start`. */
  datatype QuickWindow = QuickWindow(count: int, start: int)

  /** The limiter's answer to one change of network type at `now`: the new window, and whether to force a stop. */
  datatype QuickDecision = QuickDecision(window: QuickWindow, stop: bool)

  /**
   * A window older than 5000 ms restarts at `now` with no stops counted; a stop is
   * forced, and counted, while fewer than two were counted in the window.
   */
  function QuickStep(w: QuickWindow, now: int): (d: QuickDecision)
    ensures now - w.start > DisconnectWindowMs ==> d.window.start == now && d.stop
    ensures now - w.start <= DisconnectWindowMs ==> d.window.start == w.start && (d.stop <==> w.count < MaxDisconnectsInWindow)
    ensures 0 <= w.count <= MaxDisconnectsInWindow ==> 0 <= d.window.count <= MaxDisconnectsInWindow
  {
    var base := if now - w.start > DisconnectWindowMs then QuickWindow(0, now) else w;
    if base.count < MaxDisconnectsInWindow then QuickDecision(QuickWindow(base.count + 1, base.start), true)
    else QuickDecision(base, false)
  }

  /** How many stops the limiter forces over type changes at `times`, in order. */
  function QuickStops(w: QuickWindow, times: seq<int>): (n: nat)
    ensures n <= |times|
    decreases times
  {
    if times == [] then 0
    else
      var d := QuickStep(w, times[0]);
      (if d.stop then 1 else 0) + QuickStops(d.window, times[1..])
  }

  function Min(a: int, b: int): int { if a <= b then a else b }

  /**
   * Inside one window the limiter forces as many stops as remain of the two the
   * window allows, and no more.
   */
  lemma {:induction false} StopsWithinWindow(w: QuickWindow, times: seq<int>)
    requires 0 <= w.count <= MaxDisconnectsInWindow
    requires forall i :: 0 <= i < |times| ==> times[i] - w.start <= DisconnectWindowMs
    ensures QuickStops(w, times) == Min(|times|, MaxDisconnectsInWindow - w.count)
    decreases |times|
  {
    if times != [] {
      var d := QuickStep(w, times[0]);
      assert d.window.start == w.start;
      StopsWithinWindow(d.window, times[1..]);
    }
  }

  /**
   * Type changes that all fall within 5000 ms of one that opens a fresh window force
   * at most two stops: exactly min(n, 2).
   */
  lemma FreshWindowForcesAtMostTwo(w: QuickWindow, times: seq<int>)
    requires times != [] && times[0] - w.start > DisconnectWindowMs
    requires forall i :: 0 <= i < |times| ==> times[0] <= times[i] <= times[0] + DisconnectWindowMs
    ensures QuickStops(w, times) == Min(|times|, MaxDisconnectsInWindow)
  {
    var d := QuickStep(w, times[0]);
    assert d.window == QuickWindow(1, times[0]);
    StopsWithinWindow(d.window, times[1..]);
  }

  /** Three changes inside one window force exactly two stops. */
  lemma ThreeFlipsTwoStops()
    ensures QuickStops(QuickWindow(0, 0), [10000, 11000, 12000]) == 2
  {
    FreshWindowForcesAtMostTwo(QuickWindow(0, 0), [10000, 11000, 12000]);
  }

  /** `getCurrentNetworkType`: what the platform reports about the active network. */
  datatype ActiveNetwork = NoActiveNetwork | NoCapabilities | Transports(wifi: bool, cellular: bool)

  /** -1 with nothing known, 1 for Wi-Fi (preferred when both), 2 for cellular, 0 otherwise. */
  function NetworkType(a: ActiveNetwork): (t: int)
    ensures t == -1 <==> !a.Transports?
    ensures t == 1 <==> a.Transports? && a.wifi
    ensures t == 2 <==> a.Transports? && !a.wifi && a.cellular
    ensures -1 <= t <= 2
  {
    match a
    case Transports(wifi, cellular) => if wifi then 1 else if cellular then 2 else 0
    case _ => -1
  }

  // ---------------------------------------------------------------------------
  // Foreground notification parameters

  /**
   * The parameters `startForeground` uses: the UI's answer when it gave one in time
   * and it parsed, else the last ones pushed, else empty title and content.
   */
  function ChooseParams(fetched: Option<StartForegroundParams>, last: Option<StartForegroundParams>): (p: StartForegroundParams)
  {
    fetched.GetOr(last.GetOr(StartForegroundParams("", "")))
  }

  /** Whether the chosen parameters differ from the last ones pushed. */
  predicate ParamsChanged(chosen: StartForegroundParams, last: Option<StartForegroundParams>) {
    last != Some(chosen)
  }

  /**
   * A refresh whose fetch fails pushes nothing while earlier parameters are known,
   * and pushes empty parameters otherwise; a successful fetch pushes exactly when
   * the answer is new.
   */
  lemma ChooseParamsFallback(fetched: Option<StartForegroundParams>, last: Option<StartForegroundParams>)
    ensures fetched.None? && last.Some? ==> !ParamsChanged(ChooseParams(fetched, last), last)
    ensures fetched.None? && last.None? ==>
              ChooseParams(fetched, last) == StartForegroundParams("", "") && ParamsChanged(ChooseParams(fetched, last), last)
    ensures fetched.Some? ==> (ParamsChanged(ChooseParams(fetched, last), last) <==> last != fetched)
  {
  }

  /** Two refreshes with the same answer from the UI push at most once: the second never pushes. */
  lemma SecondIdenticalRefreshIsSilent(fetched: Option<StartForegroundParams>, last: Option<StartForegroundParams>)
    ensures var chosen := ChooseParams(fetched, last);
            !ParamsChanged(ChooseParams(fetched, Some(chosen)), Some(chosen))
  {
  }

  // ---------------------------------------------------------------------------
  // Process attribution

  /** Android 10, from which the owner uid is asked of the connectivity manager. */
  const SdkQ := 29

  /**
   * The uid `resolverProcess` looks up: from Android 10 on the connection owner the
   * platform reports (-1 when it cannot, or without a connectivity manager), before
   * that the uid the Go core passed in.
   */
  function NextUid(sdk: int, ownerUid: Option<int>, uid: int): (next: int)
    ensures sdk < SdkQ ==> next == uid
    ensures sdk >= SdkQ && ownerUid.None? ==> next == -1
    ensures sdk >= SdkQ && ownerUid.Some? ==> next == ownerUid.value
  {
    if sdk >= SdkQ then ownerUid.GetOr(-1) else uid
  }

  /**
   * `packageManager?.getPackagesForUid`: no package manager (no call is made), a
   * null array, or the package names.
   */
  datatype PackagesAnswer = NoManager | NullArray | Packages(names: seq<string>)

  /**
   * The name cached for a looked-up uid: its first package, "" without an answer;
   * `None` when the answer is an empty array, where `first()` throws.
   */
  function PackageName(a: PackagesAnswer): (name: Option<string>)
    ensures name.None? <==> a == Packages([])
    ensures a.Packages? && a.names != [] ==> name == Some(a.names[0])
    ensures a.NoManager? || a.NullArray? ==> name == Some("")
  {
    match a
    case NoManager => Some("")
    case NullArray => Some("")
    case Packages(names) => if names == [] then None else Some(names[0])
  }

  // ---------------------------------------------------------------------------
  // DNS servers sent to the UI

  /** The elements of `xs` without repetitions, each where it first occurs (iteration order of a `LinkedHashSet`). */
  function Distinct(xs: seq<string>): (r: seq<string>)
    ensures forall x :: x in r <==> x in xs
    ensures forall i, j :: 0 <= i < j < |r| ==> r[i] != r[j]
    ensures |r| <= |xs|
    ensures xs != [] ==> r != [] && r[0] == xs[0]
    ensures forall i, j :: 0 <= i < j < |r| ==> FirstIndex(xs, r[i]) < FirstIndex(xs, r[j])
    decreases |xs|
  {
    if xs == [] then []
    else
      var init := xs[..|xs| - 1];
      var r := Distinct(init);
      var x := xs[|xs| - 1];
      assert xs == init + [x];
      FirstIndexKept(init, x);
      if x in r then r
      else
        FirstIndexAt(xs, x, |init|);
        r + [x]
  }

  /** `joinToString(",")` with any separator. */
  function Join(xs: seq<string>, sep: char): (s: string)
    ensures xs == [] ==> s == ""
    ensures xs != [] ==> |s| >= |xs| - 1
  {
    if xs == [] then ""
    else if |xs| == 1 then xs[0]
    else xs[0] + [sep] + Join(xs[1..], sep)
  }

  /** Splitting at every separator: the reading of a joined list. */
  function Split(s: string, sep: char): (parts: seq<string>)
    ensures parts != []
    decreases |s|
  {
    if sep !in s then [s]
    else
      var i := FirstIndex(s, sep);
      [s[..i]] + Split(s[i + 1..], sep)
  }

  /** Joined elements that do not contain the separator split back into the same list. */
  lemma {:induction false} SplitJoin(xs: seq<string>, sep: char)
    requires xs != []
    requires forall i :: 0 <= i < |xs| ==> sep !in xs[i]
    ensures Split(Join(xs, sep), sep) == xs
  {
    if |xs| > 1 {
      var s := Join(xs, sep);
      var tail := Join(xs[1..], sep);
      assert s == xs[0] + [sep] + tail;
      assert s[|xs[0]|] == sep;
      assert s[..|xs[0]|] == xs[0];
      FirstIndexAt(s, sep, |xs[0]|);
      assert s[|xs[0]| + 1..] == tail;
      SplitJoin(xs[1..], sep);
    }
  }

  /** All lists laid end to end (`flatMap`). */
  function Flatten(lists: seq<seq<string>>): (r: seq<string>)
    ensures forall x :: x in r <==> exists i :: 0 <= i < |lists| && x in lists[i]
    decreases |lists|
  {
    if lists == [] then []
    else
      var init := lists[..|lists| - 1];
      var r := Flatten(init) + lists[|lists| - 1];
      assert forall i :: 0 <= i < |init| ==> init[i] == lists[i];
      r
  }

  /** The string `onUpdateNetwork` sends: every network's DNS servers, each once, comma-separated. */
  function DnsCsv(lists: seq<seq<string>>): string {
    Join(Distinct(Flatten(lists)), ',')
  }

  /**
   * When no server address contains a comma, the UI reads back exactly the distinct
   * servers of all networks, each once.
   */
  lemma DnsCsvReadsBack(lists: seq<seq<string>>)
    requires forall i, x :: 0 <= i < |lists| && x in lists[i] ==> ',' !in x
    requires Flatten(lists) != []
    ensures var servers := Split(DnsCsv(lists), ',');
            && (forall x :: x in servers <==> exists i :: 0 <= i < |lists| && x in lists[i])
            && (forall i, j :: 0 <= i < j < |servers| ==> servers[i] != servers[j])
  {
    var d := Distinct(Flatten(lists));
    forall k | 0 <= k < |d| ensures ',' !in d[k] {
      assert d[k] in Flatten(lists);
    }
    SplitJoin(d, ',');
  }

  // ---------------------------------------------------------------------------
  // Local addresses

  datatype InetAddress = InetAddress(isLoopback: bool, hostAddress: Option<string>)

  /** One `LinkAddress`; its address may be absent. */
  datatype LinkAddress = LinkAddress(address: Option<InetAddress>)

  /** Whether a link address contributes its host address: present, not loopback, and without ':' (IPv4). */
  predicate IsLocalIpv4(a: LinkAddress) {
    && a.address.Some?
    && !a.address.value.isLoopback
    && a.address.value.hostAddress.Some?
    && ':' !in a.address.value.hostAddress.value
  }

  /** The host addresses of one network's link addresses that `getLocalIpAddresses` keeps, in order. */
  function Ipv4Of(addrs: seq<LinkAddress>): (r: seq<string>)
    ensures |r| <= |addrs|
    decreases |addrs|
  {
    if addrs == [] then []
    else
      var a := addrs[|addrs| - 1];
      Ipv4Of(addrs[..|addrs| - 1]) + (if IsLocalIpv4(a) then [a.address.value.hostAddress.value] else [])
  }

  /**
   * The addresses kept over all networks in iteration order; a network without link
   * properties contributes nothing.
   */
  function LocalIpv4(networks: seq<nat>, links: map<nat, seq<LinkAddress>>): seq<string>
    decreases |networks|
  {
    if networks == [] then []
    else
      var n := networks[|networks| - 1];
      LocalIpv4(networks[..|networks| - 1], links) + (if n in links then Ipv4Of(links[n]) else [])
  }

  /** Every kept address is the host address of a non-loopback IPv4 link address of the network. */
  lemma {:induction false} Ipv4OfSound(addrs: seq<LinkAddress>, h: string)
    requires h in Ipv4Of(addrs)
    ensures exists a :: a in addrs && IsLocalIpv4(a) && a.address.value.hostAddress.value == h
    decreases |addrs|
  {
    var a := addrs[|addrs| - 1];
    var init := addrs[..|addrs| - 1];
    if h in Ipv4Of(init) {
      Ipv4OfSound(init, h);
      var b :| b in init && IsLocalIpv4(b) && b.address.value.hostAddress.value == h;
      assert b in addrs;
    } else {
      assert a in addrs;
    }
  }

  /** Every non-loopback IPv4 link address of the network contributes its host address. */
  lemma {:induction false} Ipv4OfComplete(addrs: seq<LinkAddress>, a: LinkAddress)
    requires a in addrs && IsLocalIpv4(a)
    ensures a.address.value.hostAddress.value in Ipv4Of(addrs)
    decreases |addrs|
  {
    var init := addrs[..|addrs| - 1];
    if a != addrs[|addrs| - 1] {
      assert a in init by { assert addrs == init + [addrs[|addrs| - 1]]; }
      Ipv4OfComplete(init, a);
    }
  }

  /** Every address a tracked network contributes is reported. */
  lemma {:induction false} LocalIpv4Complete(networks: seq<nat>, links: map<nat, seq<LinkAddress>>, n: nat, h: string)
    requires n in networks && n in links && h in Ipv4Of(links[n])
    ensures h in LocalIpv4(networks, links)
    decreases |networks|
  {
    var init := networks[..|networks| - 1];
    if n != networks[|networks| - 1] {
      assert n in init by { assert networks == init + [networks[|networks| - 1]]; }
      LocalIpv4Complete(init, links, n, h);
    }
  }

  /** Every local address reported contains no ':' and belongs to one of the listed networks. */
  lemma {:induction false} LocalIpv4Sound(networks: seq<nat>, links: map<nat, seq<LinkAddress>>, h: string)
    requires h in LocalIpv4(networks, links)
    ensures ':' !in h
    ensures exists n :: n in networks && n in links && h in Ipv4Of(links[n])
    decreases |networks|
  {
    var n := networks[|networks| - 1];
    var init := networks[..|networks| - 1];
    if h in LocalIpv4(init, links) {
      LocalIpv4Sound(init, links, h);
      var m :| m in init && m in links && h in Ipv4Of(links[m]);
      assert m in networks;
    } else {
      assert n in networks;
      Ipv4OfSound(links[n], h);
    }
  }
}
