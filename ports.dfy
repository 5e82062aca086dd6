/**
 * The per-switch port map read from the input JSON file and what the three
 * scripts derive from it: port-channel detection, the port-channel id, the
 * mode-specific switchport lines, and the VLAN and logical-switch name
 * derivations.
 */
module Ports {
  import opened Wrappers
  import opened Text

  /** One entry of `port_configs[switch]`. `mode` stays a string: an unknown mode is an error path. */
  datatype PortConfig = PortConfig(
    mode: string,
    description: string,
    speed: string,
    localMembers: seq<string>,
    isMlag: bool)

  /** A switch's port map, in the JSON object's (insertion) order. */
  type PortMap = seq<(string, PortConfig)>

  /** `port.startswith('Port')`: the port is a port-channel. */
  predicate IsPortChannel(port: string) {
    StartsWith(port, "Port")
  }

  /** `port.split('l')[1]` exists. */
  predicate HasChannelId(port: string) {
    Find(port, "l").Some?
  }

  /** `port.split('l')[1]`: the text between the first and the second 'l' ("Port-Channel5" gives "5"). */
  function ChannelId(port: string): string
    requires HasChannelId(port)
  {
    var i := Find(port, "l").value;
    assert |Split(port[i + 1..], "l")| >= 1;
    Split(port, "l")[1]
  }

  /** Every port-channel name of the map has a channel id (otherwise the scripts raise IndexError). */
  predicate WellFormedPorts(ports: PortMap) {
    forall i :: 0 <= i < |ports| && IsPortChannel(ports[i].0) ==> HasChannelId(ports[i].0)
  }

  /** The port-channel id of "Port-Channel<n>" is n, for any n without an 'l'. */
  lemma ChannelIdOfPortChannel(n: string)
    requires 'l' !in n
    ensures HasChannelId("Port-Channel" + n)
    ensures ChannelId("Port-Channel" + n) == n
  {
    var port := "Port-Channel" + n;
    assert port == "Port-Channe" + ("l" + n);
    FindAfterPrefix("Port-Channe", "l" + n, "l");
    assert ("l" + n)[..1] == "l";
    assert Find(port, "l") == Some(11);
    assert port[12..] == n;
    SplitAbsent(n, "l");
  }

  const Trunk := "trunk"
  const TrunkNative := "trunk native"
  const Access := "access"

  /** The three modes the scripts accept; any other aborts the run. */
  predicate ValidMode(mode: string) {
    mode == Trunk || mode == TrunkNative || mode == Access
  }

  predicate ModesValid(ports: PortMap) {
    forall i :: 0 <= i < |ports| ==> ValidMode(ports[i].1.mode)
  }

  /** The two switchport lines of a mode: the VLAN line, then the mode line. */
  function ModeLines(mode: string, vlan: string): (r: seq<string>)
    requires ValidMode(mode)
  {
    if mode == Trunk then ["switchport trunk allowed vlan " + vlan, "switchport mode trunk"]
    else if mode == TrunkNative then ["switchport trunk native vlan " + vlan, "switchport mode trunk"]
    else ["switchport access vlan " + vlan, "switchport mode access"]
  }

  /** The directives of a port-channel member: it joins channel `id` in LACP active mode. */
  function MemberLines(id: string, cfg: PortConfig): seq<string> {
    ["description " + cfg.description, "channel-group " + id + " mode active",
     "speed forced " + cfg.speed, "no shutdown"]
  }

  /** Python's `s[-2:]`: the last two characters, or all of a shorter string. */
  function LastTwo(s: string): string {
    if |s| >= 2 then s[|s| - 2..] else s
  }

  /** `vdnId[0] + vdnId[-2:]`: a string concatenation, not arithmetic ("5000" gives "500"). */
  function VlanFromVni(vdnId: string): (r: string)
    requires |vdnId| >= 1
  {
    [vdnId[0]] + LastTwo(vdnId)
  }

  /**
   * For a VNI of at least three decimal digits the derived VLAN is, as a
   * number, the leading digit times one hundred plus the VNI modulo one hundred.
   */
  lemma VlanFromVniValue(vdnId: string)
    requires |vdnId| >= 3 && IsDigits(vdnId)
    ensures |VlanFromVni(vdnId)| == 3
    ensures ParseNat(VlanFromVni(vdnId)) == DigitValue(vdnId[0]) * 100 + ParseNat(vdnId) % 100
  {
    var n := |vdnId|;
    var high, low := vdnId[..n - 2], vdnId[n - 2..];
    assert vdnId == high + low;
    assert Pow10(2) == 100;
    ParseNatAppend(high, low);
    ParseNatBound(low);
    ModHundred(ParseNat(high), ParseNat(low));
    var r := VlanFromVni(vdnId);
    assert r == [vdnId[0]] + low;
    ParseNatAppend([vdnId[0]], low);
    assert [vdnId[0]][..0] == [];
    assert ParseNat([vdnId[0]]) == DigitValue(vdnId[0]);
  }

  lemma ModHundred(a: nat, b: nat)
    requires b < 100
    ensures (a * 100 + b) % 100 == b
  {
  }

  /** Two worked examples of the derivation. */
  lemma VlanFromVniExamples()
    ensures VlanFromVni("5000") == "500"
    ensures VlanFromVni("12345") == "145"
  {
  }

  /** `'vls' + data_center + tenant_name + zone_name` */
  function LogicalSwitchName(dataCenter: string, tenant: string, zone: string): string {
    "vls" + dataCenter + tenant + zone
  }
}
