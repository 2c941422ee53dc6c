/**
 * Address derivation (`NetworkUtils.kt`): the first usable IPv4 address over the device's
 * interfaces, in enumeration order, and the two URLs built from it. The interface enumeration
 * is the platform's and enters the model as a value, its exception as a `Failure`.
 */
module NetworkUtils {
  import opened Wrappers
  import opened Text

  /** The parts of `InetAddress` the selection reads; `hostAddress` is nullable. */
  datatype InetAddress = InetAddress(isLoopbackAddress: bool, isInet4: bool, hostAddress: Option<string>)

  /** The parts of `NetworkInterface` the selection reads, with its addresses in enumeration order. */
  datatype NetworkInterface = NetworkInterface(name: string, isUp: bool, isLoopback: bool, addresses: seq<InetAddress>)

  const LoopbackPrefix: string := "127."
  const NoConnection: string := "No network connection"
  const DefaultPort: int := 8080

  /** An interface the outer loop does not skip. */
  predicate UsableInterface(n: NetworkInterface) {
    n.isUp && !n.isLoopback
  }

  /** An address the inner loop returns. */
  predicate UsableAddress(a: InetAddress) {
    !a.isLoopbackAddress && a.isInet4 && a.hostAddress.Some? && !StartsWith(a.hostAddress.value, LoopbackPrefix)
  }

  /** Address `j` of interface `i` is one the loops would return on reaching it. */
  predicate IsCandidate(interfaces: seq<NetworkInterface>, i: int, j: int) {
    && 0 <= i < |interfaces| && UsableInterface(interfaces[i])
    && 0 <= j < |interfaces[i].addresses| && UsableAddress(interfaces[i].addresses[j])
  }

  /** Position `(i, j)` is reached before `(i2, j2)` by the nested loops. */
  predicate Before(i: int, j: int, i2: int, j2: int) {
    i < i2 || (i == i2 && j < j2)
  }

  /** The first usable address at or after position `j`. */
  function FirstAddress(addresses: seq<InetAddress>, j: nat): (r: Option<nat>)
    requires j <= |addresses|
    ensures r.Some? ==> j <= r.value < |addresses| && UsableAddress(addresses[r.value])
    ensures r.Some? ==> forall k :: j <= k < r.value ==> !UsableAddress(addresses[k])
    ensures r.None? ==> forall k :: j <= k < |addresses| ==> !UsableAddress(addresses[k])
    decreases |addresses| - j
  {
    if j == |addresses| then None
    else if UsableAddress(addresses[j]) then Some(j)
    else FirstAddress(addresses, j + 1)
  }

  /** The first candidate on an interface at or after `i`, in the loops' order. */
  function FirstCandidate(interfaces: seq<NetworkInterface>, i: nat): (r: Option<(nat, nat)>)
    requires i <= |interfaces|
    ensures r.Some? ==> i <= r.value.0 && IsCandidate(interfaces, r.value.0, r.value.1)
    ensures r.Some? ==> forall i2, j2 :: i <= i2 && IsCandidate(interfaces, i2, j2) ==> !Before(i2, j2, r.value.0, r.value.1)
    ensures r.None? ==> forall i2, j2 :: i <= i2 ==> !IsCandidate(interfaces, i2, j2)
    decreases |interfaces| - i
  {
    if i == |interfaces| then None
    else if !UsableInterface(interfaces[i]) then FirstCandidate(interfaces, i + 1)
    else
      match FirstAddress(interfaces[i].addresses, 0)
      case Some(j) => Some((i, j))
      case None => FirstCandidate(interfaces, i + 1)
  }

  /** `getLocalIpAddress`: the host address of the first candidate; `None` when there is none or enumeration throws. */
  function LocalIpAddress(enumeration: Result<seq<NetworkInterface>>): (r: Option<string>)
    ensures enumeration.Failure? ==> r.None?
    ensures enumeration.Success? ==>
              (r.None? <==> forall i, j :: !IsCandidate(enumeration.value, i, j))
  {
    match enumeration
    case Failure(_) => None
    case Success(interfaces) =>
      match FirstCandidate(interfaces, 0)
      case None => None
      case Some((i, j)) => interfaces[i].addresses[j].hostAddress
  }

  /**
   * The chosen address is a candidate's and no candidate comes before it; in particular it never
   * comes from an interface that is down or loopback.
   */
  lemma LocalIpIsFirstCandidate(interfaces: seq<NetworkInterface>)
    requires LocalIpAddress(Success(interfaces)).Some?
    ensures exists i, j :: && IsCandidate(interfaces, i, j)
                           && interfaces[i].addresses[j].hostAddress == LocalIpAddress(Success(interfaces))
                           && forall i2, j2 :: IsCandidate(interfaces, i2, j2) ==> !Before(i2, j2, i, j)
  {
    var c := FirstCandidate(interfaces, 0).value;
    assert IsCandidate(interfaces, c.0, c.1);
  }

  /** An interface that is down or loopback can be replaced by any other such interface without changing the choice. */
  lemma {:induction false} UnusableInterfaceIsIgnored(interfaces: seq<NetworkInterface>, k: nat, other: NetworkInterface, i: nat)
    requires k < |interfaces| && !UsableInterface(interfaces[k]) && !UsableInterface(other)
    requires i <= |interfaces|
    ensures FirstCandidate(interfaces[k := other], i) == FirstCandidate(interfaces, i)
    decreases |interfaces| - i
  {
    if i < |interfaces| {
      UnusableInterfaceIsIgnored(interfaces, k, other, i + 1);
      if i != k {
        assert interfaces[k := other][i] == interfaces[i];
      }
    }
  }

  /** Hence a down or loopback interface contributes nothing, whatever addresses it holds. */
  lemma UnusableInterfaceChoice(interfaces: seq<NetworkInterface>, k: nat, other: NetworkInterface)
    requires k < |interfaces| && !UsableInterface(interfaces[k]) && !UsableInterface(other)
    ensures LocalIpAddress(Success(interfaces[k := other])) == LocalIpAddress(Success(interfaces))
  {
    UnusableInterfaceIsIgnored(interfaces, k, other, 0);
  }

  /** The nested loops of `getLocalIpAddress`, with the `continue` and the early `return`. */
  method GetLocalIpAddress(enumeration: Result<seq<NetworkInterface>>) returns (ip: Option<string>)
    ensures ip == LocalIpAddress(enumeration)
  {
    if enumeration.Failure? {
      return None;
    }
    var interfaces := enumeration.value;
    var i := 0;
    while i < |interfaces|
      invariant 0 <= i <= |interfaces|
      invariant FirstCandidate(interfaces, i) == FirstCandidate(interfaces, 0)
    {
      var networkInterface := interfaces[i];
      if !networkInterface.isUp || networkInterface.isLoopback {
        i := i + 1;
        continue;
      }
      var addresses := networkInterface.addresses;
      var j := 0;
      while j < |addresses|
        invariant 0 <= j <= |addresses|
        invariant FirstAddress(addresses, j) == FirstAddress(addresses, 0)
      {
        var address := addresses[j];
        if !address.isLoopbackAddress && address.isInet4 {
          var hostAddress := address.hostAddress;
          if hostAddress.Some? && !StartsWith(hostAddress.value, LoopbackPrefix) {
            return hostAddress;
          }
        }
        j := j + 1;
      }
      i := i + 1;
    }
    return None;
  }

  /** `getServerAddress`'s text for a chosen address. */
  function ServerAddress(ip: Option<string>, port: int): (r: string)
    ensures ip.None? <==> r == NoConnection
  {
    match ip
    case None => NoConnection
    case Some(a) =>
      var r := "http://" + a + ":" + IntToString(port);
      assert r[0] != NoConnection[0];
      r
  }

  /** `getWebSocketAddress`'s text for a chosen address. */
  function WebSocketAddress(ip: Option<string>, port: int): (r: string)
    ensures ip.None? <==> r == NoConnection
  {
    match ip
    case None => NoConnection
    case Some(a) =>
      var r := "ws://" + a + ":" + IntToString(port) + "/ws";
      assert r[0] != NoConnection[0];
      r
  }

  /** A concatenation splits back into its parts. */
  lemma SplitsBack(x: string, y: string)
    ensures (x + y)[..|x|] == x && (x + y)[|x|..] == y
  {
  }

  /** The URL prefix `scheme + a + ":"` reads back as the scheme, the address and the colon. */
  lemma HostPrefixReadsBack(scheme: string, a: string)
    ensures var x := scheme + a + ":";
            |x| == |scheme| + |a| + 1 && x[..|scheme|] == scheme && x[|scheme|..|scheme| + |a|] == a && x[|scheme| + |a|] == ':'
  {
    var x := scheme + a + ":";
    SplitsBack(scheme, a + ":");
    assert x == scheme + (a + ":");
    assert x[|scheme|..] == a + ":";
    assert x[|scheme|..|scheme| + |a|] == (a + ":")[..|a|];
  }

  /** The server URL reads back as `http://`, the address, `:` and a decimal that parses to the port. */
  lemma ServerAddressReadsBack(a: string, port: int)
    requires InInt32(port)
    ensures var r := ServerAddress(Some(a), port);
            && |r| > 8 + |a|
            && r[..7] == "http://" && r[7..7 + |a|] == a && r[7 + |a|] == ':'
            && ParseIntOrNull(r[8 + |a|..]) == Some(port)
  {
    var x, d := "http://" + a + ":", IntToString(port);
    assert ServerAddress(Some(a), port) == x + d;
    HostPrefixReadsBack("http://", a);
    SplitsBack(x, d);
    ParseIntRoundTrip(port);
  }

  /** The WebSocket URL reads back as `ws://`, the address, `:`, a decimal that parses to the port, and `/ws`. */
  lemma WebSocketAddressReadsBack(a: string, port: int)
    requires InInt32(port)
    ensures var r := WebSocketAddress(Some(a), port);
            && |r| > 9 + |a|
            && r[..5] == "ws://" && r[5..5 + |a|] == a && r[5 + |a|] == ':' && r[|r| - 3..] == "/ws"
            && ParseIntOrNull(r[6 + |a|..|r| - 3]) == Some(port)
  {
    var x, d := "ws://" + a + ":", IntToString(port);
    assert WebSocketAddress(Some(a), port) == (x + d) + "/ws";
    HostPrefixReadsBack("ws://", a);
    SplitsBack(x, d);
    SplitsBack(x + d, "/ws");
    assert ((x + d) + "/ws")[|x|..|x| + |d|] == d;
    ParseIntRoundTrip(port);
  }

  /** `getServerAddress(port)`. */
  method GetServerAddress(enumeration: Result<seq<NetworkInterface>>, port: int) returns (address: string)
    ensures address == ServerAddress(LocalIpAddress(enumeration), port)
  {
    var ip := GetLocalIpAddress(enumeration);
    if ip.Some? {
      address := "http://" + ip.value + ":" + IntToString(port);
    } else {
      address := NoConnection;
    }
  }

  /** `getWebSocketAddress(port)`. */
  method GetWebSocketAddress(enumeration: Result<seq<NetworkInterface>>, port: int) returns (address: string)
    ensures address == WebSocketAddress(LocalIpAddress(enumeration), port)
  {
    var ip := GetLocalIpAddress(enumeration);
    if ip.Some? {
      address := "ws://" + ip.value + ":" + IntToString(port) + "/ws";
    } else {
      address := NoConnection;
    }
  }
}
