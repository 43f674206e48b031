/**
 * The option records that the Flutter side sends to the Android side. The Kotlin
 * classes (VpnOptions, AccessControl, StartForegroundParams) are not part of this
 * model; their fields are reconstructed from how the Android side reads them.
 */
module Models {

  /** An address and prefix length, as produced by the `toCIDR` and route helpers. */
  datatype Cidr = Cidr(address: string, prefixLength: int)

  datatype AccessControlMode = AcceptSelected | RejectSelected

  datatype AccessControl = AccessControl(
    enable: bool,
    mode: AccessControlMode,
    acceptList: seq<string>,
    rejectList: seq<string>)

  /**
   * The desired tunnel configuration of one session. `ipv4Routes` and `ipv6Routes`
   * are what `getIpv4RouteAddress()` and `getIpv6RouteAddress()` return for these
   * options (those helpers are not part of this model).
   */
  datatype VpnOptions = VpnOptions(
    enable: bool,
    dnsServerAddress: string,
    ipv4Address: string,
    ipv6Address: string,
    ipv4Routes: seq<Cidr>,
    ipv6Routes: seq<Cidr>,
    accessControl: AccessControl,
    allowBypass: bool,
    systemProxy: bool,
    port: int,
    bypassDomain: seq<string>,
    dozeSuspend: bool)

  /** Title and content of the foreground notification, as the UI supplies them. */
  datatype StartForegroundParams = StartForegroundParams(title: string, content: string)
}
