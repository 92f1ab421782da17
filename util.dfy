/** Host facts the agent reports about itself: its IPv4 addresses, host name and OS name. The
    interface list, the host-name lookup and the build target are inputs. */
module Util {
  import opened Wrappers
  import Strings

  type Octet = x: nat | x < 256

  datatype Ipv4 = Ipv4(a: Octet, b: Octet, c: Octet, d: Octet)

  datatype IpAddr = V4(v4: Ipv4) | V6(groups: seq<nat>)

  /** One network interface as the system reports it: its name and its addresses. */
  datatype Network = Network(name: string, addrs: seq<IpAddr>)

  /** The address used when no other is found. */
  const LOOPBACK: Ipv4 := Ipv4(127, 0, 0, 1)

  /** The decimal digits of `n`, most significant first, with no leading zeros. */
  function Decimal(n: nat): (r: string)
    ensures |r| >= 1
    ensures forall k :: 0 <= k < |r| ==> '0' <= r[k] <= '9'
  {
    var digit := ['0' + (n % 10) as char];
    if n < 10 then digit else Decimal(n / 10) + digit
  }

  /** `Ipv4Addr::to_string`: dotted-quad notation. The text splits at its dots into exactly the four
      octets in decimal, in order. */
  function FormatV4(ip: Ipv4): (r: string)
    ensures Strings.Split(r, '.') == [Decimal(ip.a), Decimal(ip.b), Decimal(ip.c), Decimal(ip.d)]
    ensures |r| >= 7
  {
    var a, b, c, d := Decimal(ip.a), Decimal(ip.b), Decimal(ip.c), Decimal(ip.d);
    NoDot(a);
    NoDot(b);
    NoDot(c);
    NoDot(d);
    DottedSplit(a, b, c, d);
    a + "." + b + "." + c + "." + d
  }

  lemma NoDot(digits: string)
    requires forall k :: 0 <= k < |digits| ==> '0' <= digits[k] <= '9'
    ensures '.' !in digits
  {
  }

  /** Four dot-free pieces joined by dots split back into those pieces. */
  lemma DottedSplit(a: string, b: string, c: string, d: string)
    requires '.' !in a && '.' !in b && '.' !in c && '.' !in d
    ensures Strings.Split(a + "." + b + "." + c + "." + d, '.') == [a, b, c, d]
  {
    assert "." == ['.'];
    Strings.SplitWithout(a, '.');
    Strings.SplitSnoc(a, '.', b);
    Strings.SplitSnoc(a + "." + b, '.', c);
    Strings.SplitSnoc(a + "." + b + "." + c, '.', d);
  }

  /** Interfaces whose addresses are never reported: the loopback and container bridges. */
  predicate Excluded(name: string) {
    name == "lo" || "docker" <= name || "br-" <= name
  }

  /** The IPv4 addresses of one interface; IPv6 addresses are dropped. */
  function V4Addrs(addrs: seq<IpAddr>): (r: seq<Ipv4>)
    ensures forall k :: 0 <= k < |r| ==> V4(r[k]) in addrs
    ensures forall k :: 0 <= k < |addrs| && addrs[k].V4? ==> addrs[k].v4 in r
  {
    if addrs == [] then []
    else
      var rest := V4Addrs(addrs[1..]);
      assert forall a :: a in addrs[1..] ==> a in addrs;
      match addrs[0]
      case V4(ip) => [ip] + rest
      case V6(_) => rest
  }

  /** The addresses that survive the filter, interface by interface in the order of `networks`.
      Excluded interfaces contribute nothing: a list of only excluded interfaces keeps nothing. */
  function KeptAddrs(networks: seq<Network>): (r: seq<Ipv4>)
    ensures (forall k :: 0 <= k < |networks| ==> Excluded(networks[k].name)) ==> r == []
  {
    if networks == [] then []
    else (if Excluded(networks[0].name) then [] else V4Addrs(networks[0].addrs)) + KeptAddrs(networks[1..])
  }

  function FormatAll(ips: seq<Ipv4>): (r: seq<string>)
    ensures |r| == |ips|
    ensures forall k :: 0 <= k < |ips| ==> r[k] == FormatV4(ips[k])
  {
    if ips == [] then [] else [FormatV4(ips[0])] + FormatAll(ips[1..])
  }

  /** `IPS`. `query` is the system's interface list, `None` when it cannot be read. When the query
      fails or nothing survives the filter the result is `["127.0.0.1"]`, so it is never empty and
      every element is a dotted-quad IPv4 address. */
  function Ips(query: Option<seq<Network>>): (r: seq<string>)
    ensures |r| >= 1
    ensures forall k :: 0 <= k < |r| ==> exists ip :: r[k] == FormatV4(ip)
    ensures query.None? ==> r == [FormatV4(LOOPBACK)]
    ensures query.Some? && KeptAddrs(query.value) == [] ==> r == [FormatV4(LOOPBACK)]
    ensures query.Some? && KeptAddrs(query.value) != [] ==> r == FormatAll(KeptAddrs(query.value))
  {
    match query
    case None => [FormatV4(LOOPBACK)]
    case Some(networks) =>
      var kept := KeptAddrs(networks);
      if kept == [] then [FormatV4(LOOPBACK)]
      else
        var r := FormatAll(kept);
        assert forall k :: 0 <= k < |r| ==> r[k] == FormatV4(kept[k]);
        r
  }

  /** The fallback is the text the source writes out. */
  lemma LoopbackText()
    ensures FormatV4(LOOPBACK) == "127.0.0.1"
  {
  }

  /** Every kept address is an IPv4 address of an interface that is not excluded. */
  lemma {:induction false} KeptAddrsSound(networks: seq<Network>, ip: Ipv4)
    requires ip in KeptAddrs(networks)
    ensures exists n :: n in networks && !Excluded(n.name) && V4(ip) in n.addrs
  {
    var head := networks[0];
    var own := if Excluded(head.name) then [] else V4Addrs(head.addrs);
    if ip in own {
      var k :| 0 <= k < |own| && own[k] == ip;
      assert head in networks;
    } else {
      assert ip in KeptAddrs(networks[1..]);
      KeptAddrsSound(networks[1..], ip);
      var n :| n in networks[1..] && !Excluded(n.name) && V4(ip) in n.addrs;
      assert n in networks;
    }
  }

  /** Every IPv4 address of an interface that is not excluded is kept. */
  lemma {:induction false} KeptAddrsComplete(networks: seq<Network>, i: nat, ip: Ipv4)
    requires i < |networks| && !Excluded(networks[i].name) && V4(ip) in networks[i].addrs
    ensures ip in KeptAddrs(networks)
  {
    if i == 0 {
      var k :| 0 <= k < |networks[0].addrs| && networks[0].addrs[k] == V4(ip);
      assert ip in V4Addrs(networks[0].addrs);
    } else {
      KeptAddrsComplete(networks[1..], i - 1, ip);
    }
  }

  /** Interfaces named `lo`, `docker…` or `br-…` contribute nothing, whatever their addresses. */
  lemma {:induction false} OnlyExcludedGivesLoopback(networks: seq<Network>)
    requires forall k :: 0 <= k < |networks| ==> Excluded(networks[k].name)
    ensures Ips(Some(networks)) == ["127.0.0.1"]
  {
    LoopbackText();
  }

  /** `HOST_NAME`: `lookup` is `None` when the host name cannot be read, `Some(None)` when it is not
      valid UTF-8; both give "unknown". */
  function HostName(lookup: Option<Option<string>>): (r: string)
    ensures (lookup.Some? && lookup.value.Some?) ==> r == lookup.value.value
    ensures !(lookup.Some? && lookup.value.Some?) ==> r == "unknown"
  {
    match lookup
    case Some(Some(name)) => name
    case _ => "unknown"
  }

  datatype TargetOs = Linux | Windows | Macos | OtherOs

  /** `OS_NAME`, fixed by the build target. */
  function OsName(target: TargetOs): (r: string)
    ensures r in {"Linux", "Windows", "Macos", "Unknown"}
    ensures r == "Linux" <==> target == Linux
    ensures r == "Windows" <==> target == Windows
    ensures r == "Macos" <==> target == Macos
    ensures r == "Unknown" <==> target == OtherOs
  {
    match target
    case Linux => "Linux"
    case Windows => "Windows"
    case Macos => "Macos"
    case OtherOs => "Unknown"
  }

  /** Different targets get different names. */
  lemma OsNameInjective(t1: TargetOs, t2: TargetOs)
    requires OsName(t1) == OsName(t2)
    ensures t1 == t2
  {
  }
}
