/**
 * How the tunnel service configures the platform's `VpnService.Builder` for one set
 * of options, call by call, and what `start` returns. The builder is modelled by the
 * sequence of calls made on it; which arguments the platform refuses (the call
 * throws), which packages are installed and what `establish()` yields are inputs.
 */
module TunnelConfig {
  import opened Wrappers
  import opened Models
  import opened Sequences

  const Mtu := 1480
  const SessionName := "Bettbox"
  /** Android 10, `Build.VERSION_CODES.Q`. */
  const SdkQ := 29
  const ProxyHost := "127.0.0.1"
  const DefaultIpv4Route := Cidr("0.0.0.0", 0)
  const DefaultIpv6Route := Cidr("::", 0)

  /** One call on the builder. */
  datatype BuilderCall =
    | AddAddress(address: string)
    | AddRoute(route: Cidr)
    | AddDnsServer(server: string)
    | SetMtu(mtu: int)
    | AddAllowedApplication(allowed: string)
    | AddDisallowedApplication(disallowed: string)
    | SetSession(session: string)
    | SetBlocking(blocking: bool)
    | SetMetered(metered: bool)
    | AllowBypass
    | SetHttpProxy(host: string, port: int, exclusions: seq<string>)

  /** How the platform answers: the arguments it refuses, the installed packages, the result of `establish()`. */
  datatype TunPlatform = TunPlatform(
    sdk: int,
    packageName: string,
    rejectedAddresses: set<string>,
    rejectedRoutes: set<Cidr>,
    rejectedDnsServers: set<string>,
    installedPackages: set<string>,
    establishedFd: Option<int>)

  /** What `start` does: return a detached descriptor, or throw. */
  datatype StartOutcome = Fd(fd: int) | Threw

  /** Calls made on the builder by one stage, and whether the stage ended by throwing. */
  datatype Attempt = Attempt(calls: seq<BuilderCall>, threw: bool)

  /** Sequential composition: a stage that threw skips everything after it. */
  function Then(a: Attempt, b: Attempt): (r: Attempt)
    ensures a.threw ==> r == a
    ensures !a.threw ==> r.calls == a.calls + b.calls && r.threw == b.threw
  {
    if a.threw then a else Attempt(a.calls + b.calls, b.threw)
  }

  /** The longest prefix of `items` all of whose elements `ok` accepts: what a `forEach` adds before one throws. */
  function AcceptedPrefix<T>(items: seq<T>, ok: T -> bool): (prefix: seq<T>)
    ensures |prefix| <= |items| && prefix == items[..|prefix|]
    ensures forall i :: 0 <= i < |prefix| ==> ok(prefix[i])
    ensures |prefix| < |items| ==> !ok(items[|prefix|])
    decreases items
  {
    if items == [] || !ok(items[0]) then []
    else [items[0]] + AcceptedPrefix(items[1..], ok)
  }

  function RouteCalls(routes: seq<Cidr>): (calls: seq<BuilderCall>)
    ensures |calls| == |routes|
    ensures forall i :: 0 <= i < |routes| ==> calls[i] == AddRoute(routes[i])
  {
    seq(|routes|, i requires 0 <= i < |routes| => AddRoute(routes[i]))
  }

  function RouteRefused(rejected: set<Cidr>): Cidr -> bool {
    r => r !in rejected
  }

  /** Adding the catch-all route `fallback`. */
  function FallbackRoute(fallback: Cidr, rejected: set<Cidr>): Attempt {
    if fallback in rejected then Attempt([], true) else Attempt([AddRoute(fallback)], false)
  }

  /**
   * The specific routes when there are any; when one is refused, the ones added
   * before it stay and the catch-all route follows them. With no specific routes, the
   * catch-all route alone.
   */
  function RouteStage(routes: seq<Cidr>, fallback: Cidr, rejected: set<Cidr>): Attempt {
    if routes == [] then FallbackRoute(fallback, rejected)
    else
      var added := AcceptedPrefix(routes, RouteRefused(rejected));
      if |added| == |routes| then Attempt(RouteCalls(added), false)
      else Then(Attempt(RouteCalls(added), false), FallbackRoute(fallback, rejected))
  }

  /** The IPv4 part: only a refused address or a refused catch-all route throws. */
  function Ipv4Stage(o: VpnOptions, p: TunPlatform): (r: Attempt)
    ensures o.ipv4Address != "" && o.ipv4Address in p.rejectedAddresses ==> r == Attempt([], true)
    ensures o.ipv4Address != "" && !r.threw ==> r.calls != [] && r.calls[0] == AddAddress(o.ipv4Address)
    ensures DefaultIpv4Route !in p.rejectedRoutes && (o.ipv4Address == "" || o.ipv4Address !in p.rejectedAddresses) ==> !r.threw
  {
    if o.ipv4Address == "" then FallbackRoute(DefaultIpv4Route, p.rejectedRoutes)
    else if o.ipv4Address in p.rejectedAddresses then Attempt([], true)
    else Then(Attempt([AddAddress(o.ipv4Address)], false), RouteStage(o.ipv4Routes, DefaultIpv4Route, p.rejectedRoutes))
  }

  /** The IPv6 part runs inside its own try block: whatever it added stays, a failure is swallowed. */
  function Ipv6Stage(o: VpnOptions, p: TunPlatform): (r: Attempt)
    ensures !r.threw
    ensures r.calls == [] <==> o.ipv6Address == "" || o.ipv6Address in p.rejectedAddresses
  {
    if o.ipv6Address == "" || o.ipv6Address in p.rejectedAddresses then Attempt([], false)
    else Attempt([AddAddress(o.ipv6Address)] + RouteStage(o.ipv6Routes, DefaultIpv6Route, p.rejectedRoutes).calls, false)
  }

  /** The DNS server: a refused one throws, otherwise it is the one call. */
  function DnsStage(o: VpnOptions, p: TunPlatform): (r: Attempt)
    ensures r.threw <==> o.dnsServerAddress in p.rejectedDnsServers
    ensures !r.threw ==> r.calls == [AddDnsServer(o.dnsServerAddress)]
  {
    if o.dnsServerAddress in p.rejectedDnsServers then Attempt([], true)
    else Attempt([AddDnsServer(o.dnsServerAddress)], false)
  }

  /** Kotlin's `List.minus(element)`: the list without the FIRST occurrence of `x`. */
  function RemoveFirst(xs: seq<string>, x: string): (r: seq<string>)
    ensures x !in xs ==> r == xs
    ensures x in xs ==> |r| == |xs| - 1
    ensures forall y :: y in r ==> y in xs
    ensures x in xs ==> r == xs[..FirstIndex(xs, x)] + xs[FirstIndex(xs, x) + 1..]
  {
    if xs == [] then []
    else if xs[0] == x then xs[1..]
    else
      var rest := RemoveFirst(xs[1..], x);
      RemoveFirstCons(xs, x, rest);
      [xs[0]] + rest
  }

  /** Past a head other than `x`, removing from the tail removes from the whole list. */
  lemma RemoveFirstCons(xs: seq<string>, x: string, rest: seq<string>)
    requires xs != [] && xs[0] != x
    requires x !in xs[1..] ==> rest == xs[1..]
    requires forall y :: y in rest ==> y in xs[1..]
    requires x in xs[1..] ==> rest == xs[1..][..FirstIndex(xs[1..], x)] + xs[1..][FirstIndex(xs[1..], x) + 1..]
    ensures x !in xs ==> [xs[0]] + rest == xs
    ensures x in xs ==> |[xs[0]] + rest| == |xs| - 1
    ensures forall y :: y in [xs[0]] + rest ==> y in xs
    ensures x in xs ==> [xs[0]] + rest == xs[..FirstIndex(xs, x)] + xs[FirstIndex(xs, x) + 1..]
  {
    assert xs == [xs[0]] + xs[1..];
    forall y | y in [xs[0]] + rest
      ensures y in xs
    {
      if y != xs[0] {
        assert y in xs[1..];
      }
    }
    if x in xs {
      assert x in xs[1..];
      var k := FirstIndex(xs[1..], x);
      assert xs[..k + 1] == [xs[0]] + xs[1..][..k];
      FirstIndexAt(xs, x, k + 1);
      assert xs[k + 2..] == xs[1..][k + 1..];
    }
  }

  /** The packages access control lists for these options: none when it is off. */
  function AccessPackages(ac: AccessControl, packageName: string): seq<string> {
    if !ac.enable then []
    else if ac.mode == AcceptSelected then ac.acceptList + [packageName]
    else RemoveFirst(ac.rejectList, packageName)
  }

  function AppCall(ac: AccessControl, pkg: string): BuilderCall {
    if ac.mode == AcceptSelected then AddAllowedApplication(pkg) else AddDisallowedApplication(pkg)
  }

  function AppCalls(ac: AccessControl, pkgs: seq<string>): (calls: seq<BuilderCall>)
    ensures |calls| == |pkgs|
    ensures forall i :: 0 <= i < |pkgs| ==> calls[i] == AppCall(ac, pkgs[i])
  {
    seq(|pkgs|, i requires 0 <= i < |pkgs| => AppCall(ac, pkgs[i]))
  }

  function Installed(installed: set<string>): string -> bool {
    pkg => pkg in installed
  }

  /** Each listed package in turn; a package that is not installed throws. */
  function AppStage(o: VpnOptions, p: TunPlatform): (r: Attempt)
    ensures var pkgs := AccessPackages(o.accessControl, p.packageName);
            r.threw <==> exists i :: 0 <= i < |pkgs| && pkgs[i] !in p.installedPackages
  {
    var pkgs := AccessPackages(o.accessControl, p.packageName);
    var added := AcceptedPrefix(pkgs, Installed(p.installedPackages));
    StopsAtMissingPackage(pkgs, p.installedPackages);
    Attempt(AppCalls(o.accessControl, added), |added| < |pkgs|)
  }

  /** The `forEach` over the packages stops early exactly when one of them is not installed. */
  lemma StopsAtMissingPackage(pkgs: seq<string>, installed: set<string>)
    ensures |AcceptedPrefix(pkgs, Installed(installed))| < |pkgs|
            <==> exists i :: 0 <= i < |pkgs| && pkgs[i] !in installed
  {
    var added := AcceptedPrefix(pkgs, Installed(installed));
    if |added| < |pkgs| {
      assert !Installed(installed)(pkgs[|added|]);
    }
    if i :| 0 <= i < |pkgs| && pkgs[i] !in installed {
      assert !Installed(installed)(pkgs[i]);
      RefusalBoundsPrefix(pkgs, Installed(installed), i);
    }
  }

  /** The session settings, which never throw; the metered flag is cleared only from Android 10 on. */
  function SessionStage(o: VpnOptions, p: TunPlatform): (r: Attempt)
    ensures !r.threw
    ensures SetMetered(false) in r.calls <==> p.sdk >= SdkQ
  {
    Attempt([SetSession(SessionName), SetBlocking(false)]
            + (if p.sdk >= SdkQ then [SetMetered(false)] else [])
            + (if o.allowBypass then [AllowBypass] else [])
            + (if p.sdk >= SdkQ && o.systemProxy then [SetHttpProxy(ProxyHost, o.port, o.bypassDomain)] else []),
            false)
  }

  /** Every builder call `start` makes before `establish()`, and whether one of them threw. */
  function Plan(o: VpnOptions, p: TunPlatform): (r: Attempt)
    ensures !r.threw <==> !Ipv4Stage(o, p).threw && !DnsStage(o, p).threw && !AppStage(o, p).threw
  {
    Then(Then(Then(Then(Then(Ipv4Stage(o, p), Ipv6Stage(o, p)), DnsStage(o, p)),
                   Attempt([SetMtu(Mtu)], false)), AppStage(o, p)), SessionStage(o, p))
  }

  /** The outcome of `start`: the descriptor `establish()` detaches, or a throw. */
  function Outcome(o: VpnOptions, p: TunPlatform): (r: StartOutcome)
    ensures r.Fd? <==> !Plan(o, p).threw && p.establishedFd.Some?
    ensures r.Fd? ==> r.fd == p.establishedFd.value
  {
    if Plan(o, p).threw || p.establishedFd.None? then Threw else Fd(p.establishedFd.value)
  }

  /** The `forEach` over the specific routes, with the catch-all fallback. */
  method AddRoutes(routes: seq<Cidr>, fallback: Cidr, rejected: set<Cidr>) returns (calls: seq<BuilderCall>, threw: bool)
    ensures Attempt(calls, threw) == RouteStage(routes, fallback, rejected)
  {
    if routes == [] {
      if fallback in rejected {
        return [], true;
      }
      return [AddRoute(fallback)], false;
    }
    calls := [];
    var i := 0;
    var failed := false;
    while i < |routes| && !failed
      invariant 0 <= i <= |routes|
      invariant calls == RouteCalls(routes[..i])
      invariant forall j :: 0 <= j < i ==> routes[j] !in rejected
      invariant failed ==> i < |routes| && routes[i] in rejected
      decreases |routes| - i, !failed
    {
      if routes[i] in rejected {
        failed := true;
      } else {
        calls := calls + [AddRoute(routes[i])];
        i := i + 1;
      }
    }
    PrefixIsAccepted(routes, RouteRefused(rejected), i);
    assert !failed ==> routes[..i] == routes;
    threw := false;
    if failed {
      if fallback in rejected {
        threw := true;
      } else {
        calls := calls + [AddRoute(fallback)];
      }
    }
  }

  /** The `forEach` over the access-control packages. */
  method AddApplications(ac: AccessControl, pkgs: seq<string>, installed: set<string>)
    returns (calls: seq<BuilderCall>, threw: bool)
    ensures calls == AppCalls(ac, AcceptedPrefix(pkgs, Installed(installed)))
    ensures threw <==> |AcceptedPrefix(pkgs, Installed(installed))| < |pkgs|
  {
    calls := [];
    var i := 0;
    threw := false;
    while i < |pkgs| && !threw
      invariant 0 <= i <= |pkgs|
      invariant calls == AppCalls(ac, pkgs[..i])
      invariant forall j :: 0 <= j < i ==> pkgs[j] in installed
      invariant threw ==> i < |pkgs| && pkgs[i] !in installed
      decreases |pkgs| - i, !threw
    {
      if pkgs[i] !in installed {
        threw := true;
      } else {
        calls := calls + [AppCall(ac, pkgs[i])];
        i := i + 1;
      }
    }
    PrefixIsAccepted(pkgs, Installed(installed), i);
  }

  /** A prefix of accepted items ending at a refused item, or at the end, is the accepted prefix. */
  lemma {:induction false} PrefixIsAccepted<T>(items: seq<T>, ok: T -> bool, n: nat)
    requires n <= |items|
    requires forall j :: 0 <= j < n ==> ok(items[j])
    requires n < |items| ==> !ok(items[n])
    ensures AcceptedPrefix(items, ok) == items[..n]
  {
  }

  /** `BettboxVpnService.start`: configure the builder stage by stage, then establish. */
  method Start(o: VpnOptions, p: TunPlatform) returns (outcome: StartOutcome, calls: seq<BuilderCall>)
    ensures calls == Plan(o, p).calls
    ensures outcome == Outcome(o, p)
    ensures outcome.Fd? <==> !Plan(o, p).threw && p.establishedFd.Some?
    ensures outcome.Fd? ==> outcome.fd == p.establishedFd.value
  {
    // IPv4: a refused address or catch-all route ends `start` with a throw
    var stage: seq<BuilderCall>, threw: bool;
    if o.ipv4Address == "" {
      stage, threw := AddRoutes([], DefaultIpv4Route, p.rejectedRoutes);
    } else if o.ipv4Address in p.rejectedAddresses {
      stage, threw := [], true;
    } else {
      stage, threw := AddRoutes(o.ipv4Routes, DefaultIpv4Route, p.rejectedRoutes);
      stage := [AddAddress(o.ipv4Address)] + stage;
    }
    calls := stage;
    ghost var done := Attempt(calls, threw);
    assert done == Ipv4Stage(o, p);
    if threw {
      return Threw, calls;
    }
    // IPv6: failures are swallowed, what was added stays
    if o.ipv6Address != "" && o.ipv6Address !in p.rejectedAddresses {
      stage, threw := AddRoutes(o.ipv6Routes, DefaultIpv6Route, p.rejectedRoutes);
      calls := calls + [AddAddress(o.ipv6Address)] + stage;
    }
    done := Then(done, Ipv6Stage(o, p));
    assert done == Attempt(calls, false);
    // DNS
    if o.dnsServerAddress in p.rejectedDnsServers {
      return Threw, calls;
    }
    calls := calls + [AddDnsServer(o.dnsServerAddress)];
    // MTU
    calls := calls + [SetMtu(Mtu)];
    done := Then(Then(done, DnsStage(o, p)), Attempt([SetMtu(Mtu)], false));
    assert done == Attempt(calls, false);
    // access control
    stage, threw := AddApplications(o.accessControl, AccessPackages(o.accessControl, p.packageName), p.installedPackages);
    calls := calls + stage;
    done := Then(done, AppStage(o, p));
    assert done == Attempt(calls, threw);
    if threw {
      return Threw, calls;
    }
    // session, bypass, proxy
    calls := calls + SessionStage(o, p).calls;
    if p.establishedFd.None? {
      return Threw, calls;
    }
    outcome := Fd(p.establishedFd.value);
  }

  /** When nothing threw, the calls are those of every stage, in order. */
  lemma PlanSucceeded(o: VpnOptions, p: TunPlatform)
    requires !Plan(o, p).threw
    ensures !Ipv4Stage(o, p).threw && !DnsStage(o, p).threw && !AppStage(o, p).threw
    ensures Plan(o, p).calls == Ipv4Stage(o, p).calls + Ipv6Stage(o, p).calls + DnsStage(o, p).calls
                                + [SetMtu(Mtu)] + AppStage(o, p).calls + SessionStage(o, p).calls
  {
  }

  predicate IsAddressing(c: BuilderCall) { c.AddAddress? || c.AddRoute? }
  predicate IsAppCall(c: BuilderCall) { c.AddAllowedApplication? || c.AddDisallowedApplication? }
  predicate IsSessionCall(c: BuilderCall) {
    c.SetSession? || c.SetBlocking? || c.SetMetered? || c.AllowBypass? || c.SetHttpProxy?
  }

  /** Each stage makes calls of its own kind only. */
  lemma StageKinds(o: VpnOptions, p: TunPlatform)
    ensures forall c :: c in Ipv4Stage(o, p).calls ==> IsAddressing(c)
    ensures forall c :: c in Ipv6Stage(o, p).calls ==> IsAddressing(c)
    ensures forall c :: c in DnsStage(o, p).calls ==> c.AddDnsServer?
    ensures forall c :: c in AppStage(o, p).calls ==> IsAppCall(c)
    ensures forall c :: c in SessionStage(o, p).calls ==> IsSessionCall(c)
  {
    RouteStageCallsAreRoutes(o.ipv4Routes, DefaultIpv4Route, p.rejectedRoutes);
    RouteStageCallsAreRoutes(o.ipv6Routes, DefaultIpv6Route, p.rejectedRoutes);
  }

  /** A route stage makes only `addRoute` calls. */
  lemma RouteStageCallsAreRoutes(routes: seq<Cidr>, fallback: Cidr, rejected: set<Cidr>)
    ensures forall c :: c in RouteStage(routes, fallback, rejected).calls ==> c.AddRoute?
  {
  }

  /** Every call of a successful plan belongs to the stage of its kind. */
  lemma CallsByKind(o: VpnOptions, p: TunPlatform, c: BuilderCall)
    requires !Plan(o, p).threw && c in Plan(o, p).calls
    ensures IsAppCall(c) ==> c in AppStage(o, p).calls
    ensures IsSessionCall(c) ==> c in SessionStage(o, p).calls
    ensures c.SetMtu? ==> c == SetMtu(Mtu)
    ensures c.AddDnsServer? ==> c in DnsStage(o, p).calls
  {
    PlanSucceeded(o, p);
    StageKinds(o, p);
  }

  /** The options' DNS server is always added, and the MTU is always 1480. */
  lemma DnsAndMtuAlwaysApplied(o: VpnOptions, p: TunPlatform)
    ensures o.dnsServerAddress in p.rejectedDnsServers ==> Outcome(o, p) == Threw
    ensures !Plan(o, p).threw ==>
              && AddDnsServer(o.dnsServerAddress) in Plan(o, p).calls
              && (forall c :: c in Plan(o, p).calls && c.AddDnsServer? ==> c.server == o.dnsServerAddress)
              && SetMtu(Mtu) in Plan(o, p).calls
              && (forall c :: c in Plan(o, p).calls && c.SetMtu? ==> c.mtu == 1480)
  {
    if !Plan(o, p).threw {
      PlanSucceeded(o, p);
      forall c | c in Plan(o, p).calls
        ensures c.AddDnsServer? ==> c.server == o.dnsServerAddress
        ensures c.SetMtu? ==> c.mtu == 1480
      {
        CallsByKind(o, p, c);
      }
    }
  }

  /** An element the predicate refuses bounds the accepted prefix. */
  lemma {:induction false} RefusalBoundsPrefix<T>(items: seq<T>, ok: T -> bool, k: nat)
    requires k < |items| && !ok(items[k])
    ensures |AcceptedPrefix(items, ok)| <= k
  {
    if k > 0 && ok(items[0]) {
      RefusalBoundsPrefix(items[1..], ok, k - 1);
    }
  }

  /**
   * With no IPv4 address, with no specific IPv4 routes, or when one of them is
   * refused, the catch-all route 0.0.0.0/0 is added; in the last case after the
   * specific routes that were added before the refusal.
   */
  lemma CatchAllIpv4Route(o: VpnOptions, p: TunPlatform)
    requires !Plan(o, p).threw
    ensures o.ipv4Address == "" ==> Ipv4Stage(o, p).calls == [AddRoute(DefaultIpv4Route)]
    ensures o.ipv4Address != "" ==>
              var added := AcceptedPrefix(o.ipv4Routes, RouteRefused(p.rejectedRoutes));
              Ipv4Stage(o, p).calls == [AddAddress(o.ipv4Address)] + RouteCalls(added)
                + (if o.ipv4Routes == [] || |added| < |o.ipv4Routes| then [AddRoute(DefaultIpv4Route)] else [])
    ensures (o.ipv4Address == "" || o.ipv4Routes == [] || (exists r :: r in o.ipv4Routes && r in p.rejectedRoutes))
              ==> AddRoute(DefaultIpv4Route) in Plan(o, p).calls
  {
    PlanSucceeded(o, p);
    if o.ipv4Address != "" && o.ipv4Routes != [] && exists r :: r in o.ipv4Routes && r in p.rejectedRoutes {
      var k :| 0 <= k < |o.ipv4Routes| && o.ipv4Routes[k] in p.rejectedRoutes;
      RefusalBoundsPrefix(o.ipv4Routes, RouteRefused(p.rejectedRoutes), k);
      var calls := Ipv4Stage(o, p).calls;
      assert calls[|calls| - 1] == AddRoute(DefaultIpv4Route);
    }
  }

  /**
   * IPv6 is configured only when an IPv6 address is given, with ::/0 when there are
   * no specific IPv6 routes; and nothing about IPv6 can make `start` throw.
   */
  lemma Ipv6IsOptional(o: VpnOptions, p: TunPlatform)
    ensures o.ipv6Address == "" ==> Ipv6Stage(o, p).calls == []
    ensures o.ipv6Address != "" && o.ipv6Address !in p.rejectedAddresses ==>
              Ipv6Stage(o, p).calls[0] == AddAddress(o.ipv6Address)
              && (o.ipv6Routes == [] && DefaultIpv6Route !in p.rejectedRoutes ==>
                    Ipv6Stage(o, p).calls == [AddAddress(o.ipv6Address), AddRoute(DefaultIpv6Route)])
    ensures Plan(o, p).threw == Plan(o.(ipv6Address := ""), p).threw
    ensures Outcome(o, p) == Outcome(o.(ipv6Address := ""), p)
  {
  }

  /** The access-control stage makes one call per listed package, of the mode's kind. */
  lemma AppStageCalls(o: VpnOptions, p: TunPlatform, pkg: string)
    requires !AppStage(o, p).threw
    ensures AppCall(o.accessControl, pkg) in AppStage(o, p).calls <==> pkg in AccessPackages(o.accessControl, p.packageName)
    ensures forall c :: c in AppStage(o, p).calls ==> c == AppCall(o.accessControl, if c.AddAllowedApplication? then c.allowed else c.disallowed)
  {
    var ac := o.accessControl;
    var pkgs := AccessPackages(ac, p.packageName);
    assert AcceptedPrefix(pkgs, Installed(p.installedPackages)) == pkgs;
    var calls := AppCalls(ac, pkgs);
    if AppCall(ac, pkg) in calls {
      var i :| 0 <= i < |pkgs| && calls[i] == AppCall(ac, pkg);
      assert pkgs[i] == pkg;
    }
    if pkg in pkgs {
      var i :| 0 <= i < |pkgs| && pkgs[i] == pkg;
      assert calls[i] == AppCall(ac, pkg);
    }
  }

  /**
   * Access control: in acceptSelected mode exactly the accept list and the app's own
   * package are allowed; in rejectSelected mode exactly the reject list without (the
   * first occurrence of) the app's own package is disallowed; when access control is
   * off neither kind of call is made.
   */
  lemma AccessControlApplied(o: VpnOptions, p: TunPlatform, pkg: string)
    requires !Plan(o, p).threw
    ensures AddAllowedApplication(pkg) in Plan(o, p).calls <==>
              o.accessControl.enable && o.accessControl.mode == AcceptSelected
              && (pkg in o.accessControl.acceptList || pkg == p.packageName)
    ensures AddDisallowedApplication(pkg) in Plan(o, p).calls <==>
              o.accessControl.enable && o.accessControl.mode == RejectSelected
              && pkg in RemoveFirst(o.accessControl.rejectList, p.packageName)
  {
    PlanSucceeded(o, p);
    AppStageCalls(o, p, pkg);
    var ac := o.accessControl;
    if AddAllowedApplication(pkg) in Plan(o, p).calls {
      CallsByKind(o, p, AddAllowedApplication(pkg));
    }
    if AddDisallowedApplication(pkg) in Plan(o, p).calls {
      CallsByKind(o, p, AddDisallowedApplication(pkg));
    }
  }

  /** The app never disallows itself, unless its own package is listed twice in the reject list. */
  lemma {:induction false} OwnPackageNotDisallowed(xs: seq<string>, pkg: string)
    requires forall i, j :: 0 <= i < j < |xs| && xs[i] == pkg ==> xs[j] != pkg
    ensures pkg !in RemoveFirst(xs, pkg)
  {
    if xs != [] && xs[0] != pkg {
      OwnPackageNotDisallowed(xs[1..], pkg);
    } else if xs != [] {
      assert forall j :: 0 <= j < |xs[1..]| ==> xs[1..][j] == xs[j + 1];
    }
  }

  /**
   * `allowBypass()` is called exactly when the options ask for it, and the local
   * proxy 127.0.0.1:port exactly on Android 10 or later with the system proxy on.
   */
  lemma BypassAndProxy(o: VpnOptions, p: TunPlatform)
    requires !Plan(o, p).threw
    ensures AllowBypass in Plan(o, p).calls <==> o.allowBypass
    ensures (exists c :: c in Plan(o, p).calls && c.SetHttpProxy?) <==> p.sdk >= SdkQ && o.systemProxy
    ensures forall c :: c in Plan(o, p).calls && c.SetHttpProxy? ==> c == SetHttpProxy(ProxyHost, o.port, o.bypassDomain)
  {
    PlanSucceeded(o, p);
    SessionBypassAndProxy(o, p);
    var calls := Plan(o, p).calls;
    var session := SessionStage(o, p).calls;
    assert forall c :: c in session ==> c in calls;
    forall c | c in calls && IsSessionCall(c)
      ensures c in session
    {
      CallsByKind(o, p, c);
    }
  }

  /** The session stage allows bypass exactly when asked, and sets the local proxy exactly from Android 10 on when asked. */
  lemma SessionBypassAndProxy(o: VpnOptions, p: TunPlatform)
    ensures AllowBypass in SessionStage(o, p).calls <==> o.allowBypass
    ensures (exists c :: c in SessionStage(o, p).calls && c.SetHttpProxy?) <==> p.sdk >= SdkQ && o.systemProxy
    ensures forall c :: c in SessionStage(o, p).calls && c.SetHttpProxy? ==> c == SetHttpProxy(ProxyHost, o.port, o.bypassDomain)
  {
    var session := SessionStage(o, p).calls;
    if p.sdk >= SdkQ && o.systemProxy {
      assert SetHttpProxy(ProxyHost, o.port, o.bypassDomain) in session;
    }
  }

}
