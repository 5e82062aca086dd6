/**
 * The NSX hardware-binding planner, `nsx_hardware_binding` with its advisory
 * check `nsx_binding_check`. The three scripts carry the same text of both
 * functions; it is modelled once here. For each port of a switch the planner
 * picks the name NSX knows the port by (an MLAG port-channel binds as the
 * MLAG domain's port), prints a notice for every existing binding of that
 * name, picks the VLAN and posts exactly one binding request; a failed post
 * is reported and the loop goes on.
 *
 * NSX's replies are inputs: for each port, the existing-bindings reply read
 * at check time and the status code of the binding post.
 */
module Binding {
  import opened Wrappers
  import opened Text
  import opened Ports

  /** One existing hardware-gateway binding of the logical switch. */
  datatype Binding = Binding(switchName: string, portName: string)

  /**
   * The `list` element of the existing-bindings reply: empty, a single
   * binding (XML decoding gives a dictionary), or several (a list).
   */
  datatype BindingReply = NoBindings | One(record: Binding) | Many(records: seq<Binding>)

  function Records(reply: BindingReply): seq<Binding> {
    match reply
    case NoBindings => []
    case One(b) => [b]
    case Many(bs) => bs
  }

  predicate IsMatch(b: Binding, switch: string, port: string) {
    b.switchName == switch && b.portName == port
  }

  /** Some existing binding has exactly this switch name and port name. */
  predicate AlreadyBound(reply: BindingReply, switch: string, port: string) {
    exists b :: b in Records(reply) && IsMatch(b, switch, port)
  }

  /** The number of records bound to exactly this switch and port name. */
  function MatchCount(records: seq<Binding>, switch: string, port: string): nat {
    if |records| == 0 then 0
    else MatchCount(records[..|records| - 1], switch, port) + (if IsMatch(records[|records| - 1], switch, port) then 1 else 0)
  }

  /** Some binding has this switch name and this port name exactly when at least one notice is printed. */
  lemma {:induction false} MatchCountMeaning(records: seq<Binding>, switch: string, port: string)
    ensures MatchCount(records, switch, port) <= |records|
    ensures MatchCount(records, switch, port) > 0 <==>
      exists i :: 0 <= i < |records| && IsMatch(records[i], switch, port)
  {
    if |records| > 0 {
      var init := records[..|records| - 1];
      MatchCountMeaning(init, switch, port);
      if MatchCount(init, switch, port) > 0 {
        var i :| 0 <= i < |init| && IsMatch(init[i], switch, port);
        assert records[i] == init[i];
      }
      if exists i :: 0 <= i < |records| && IsMatch(records[i], switch, port) {
        var i :| 0 <= i < |records| && IsMatch(records[i], switch, port);
        if i < |init| {
          assert init[i] == records[i];
        }
      }
    }
  }

  /**
   * `nsx_binding_check`: returns the number of "already bound" notices printed
   * (one per matching record); nothing is printed when there are no bindings.
   */
  method BindingCheck(reply: BindingReply, switch: string, port: string) returns (notices: nat)
    ensures notices == MatchCount(Records(reply), switch, port)
  {
    notices := 0;
    match reply {
      case NoBindings =>
      case One(b) =>
        assert [b][..0] == [];
        if IsMatch(b, switch, port) {
          notices := 1;
        }
      case Many(bs) =>
        var i := 0;
        while i < |bs|
          invariant 0 <= i <= |bs|
          invariant notices == MatchCount(bs[..i], switch, port)
        {
          assert bs[..i + 1][..i] == bs[..i];
          if IsMatch(bs[i], switch, port) {
            notices := notices + 1;
          }
          i := i + 1;
        }
        assert bs[..i] == bs;
    }
  }

  /** The body of the binding post. */
  datatype BindingRequest = BindingRequest(hardwareGatewayId: string, vlan: string, switchName: string, portName: string)

  /**
   * The script takes the channel id (the text after the first 'l') only of an
   * MLAG port-channel, so only such a port needs an 'l' in its name.
   */
  predicate Bindable(port: string, cfg: PortConfig) {
    IsPortChannel(port) && cfg.isMlag ==> HasChannelId(port)
  }

  predicate BindablePorts(ports: PortMap) {
    forall i :: 0 <= i < |ports| ==> Bindable(ports[i].0, ports[i].1)
  }

  /** The switch and port name NSX binds: an MLAG port-channel is ("mlag-<domain>", "Mlag<id>"). */
  function Target(switch: string, port: string, cfg: PortConfig, mlagDomain: string): Binding
    requires Bindable(port, cfg)
  {
    if IsPortChannel(port) && cfg.isMlag then Binding("mlag-" + mlagDomain, "Mlag" + ChannelId(port))
    else Binding(switch, port)
  }

  /** An access port binds untagged (VLAN "0"); every other port binds the logical switch's VLAN. */
  function PortVlan(cfg: PortConfig, vlan: string): string {
    if cfg.mode == Access then "0" else vlan
  }

  function Request(hwId: string, switch: string, port: string, cfg: PortConfig, vlan: string, mlagDomain: string): BindingRequest
    requires Bindable(port, cfg)
  {
    var t := Target(switch, port, cfg, mlagDomain);
    BindingRequest(hwId, PortVlan(cfg, vlan), t.switchName, t.portName)
  }

  /** What the planner does for one port: the request posted, the notices printed, and whether the post succeeded. */
  datatype PortReport = PortReport(port: string, request: BindingRequest, notices: nat, bound: bool)

  function PortStep(hwId: string, switch: string, port: string, cfg: PortConfig, vlan: string, mlagDomain: string,
                    reply: BindingReply, status: int): PortReport
    requires Bindable(port, cfg)
  {
    var t := Target(switch, port, cfg, mlagDomain);
    PortReport(port, Request(hwId, switch, port, cfg, vlan, mlagDomain),
               MatchCount(Records(reply), t.switchName, t.portName), status == 200)
  }

  /** One report per port, in port-map order. */
  function Reports(hwId: string, switch: string, ports: PortMap, vlan: string, mlagDomain: string,
                   replies: seq<BindingReply>, statuses: seq<int>): seq<PortReport>
    requires BindablePorts(ports) && |replies| == |ports| && |statuses| == |ports|
  {
    if |ports| == 0 then []
    else
      var n := |ports| - 1;
      Reports(hwId, switch, ports[..n], vlan, mlagDomain, replies[..n], statuses[..n]) +
      [PortStep(hwId, switch, ports[n].0, ports[n].1, vlan, mlagDomain, replies[n], statuses[n])]
  }

  /** The i-th report is the step of port i. */
  lemma {:induction false} ReportsIndex(hwId: string, switch: string, ports: PortMap, vlan: string, mlagDomain: string,
                                        replies: seq<BindingReply>, statuses: seq<int>)
    requires BindablePorts(ports) && |replies| == |ports| && |statuses| == |ports|
    ensures var r := Reports(hwId, switch, ports, vlan, mlagDomain, replies, statuses);
      |r| == |ports| &&
      forall i :: 0 <= i < |ports| ==>
        r[i] == PortStep(hwId, switch, ports[i].0, ports[i].1, vlan, mlagDomain, replies[i], statuses[i])
  {
    if |ports| > 0 {
      var n := |ports| - 1;
      assert BindablePorts(ports[..n]);
      ReportsIndex(hwId, switch, ports[..n], vlan, mlagDomain, replies[..n], statuses[..n]);
      var r := Reports(hwId, switch, ports, vlan, mlagDomain, replies, statuses);
      var init := Reports(hwId, switch, ports[..n], vlan, mlagDomain, replies[..n], statuses[..n]);
      forall i | 0 <= i < n
        ensures r[i] == PortStep(hwId, switch, ports[i].0, ports[i].1, vlan, mlagDomain, replies[i], statuses[i])
      {
        assert r[i] == init[i];
        assert ports[..n][i] == ports[i] && replies[..n][i] == replies[i] && statuses[..n][i] == statuses[i];
      }
    }
  }

  /** One port's report: its request, and notices exactly when the target is already bound. */
  lemma PortStepMeaning(hwId: string, switch: string, port: string, cfg: PortConfig, vlan: string, mlagDomain: string,
                        reply: BindingReply, status: int)
    requires Bindable(port, cfg)
    ensures var s := PortStep(hwId, switch, port, cfg, vlan, mlagDomain, reply, status);
      s.port == port && s.request == Request(hwId, switch, port, cfg, vlan, mlagDomain) &&
      (s.bound <==> status == 200) &&
      (s.notices > 0 <==> AlreadyBound(reply, s.request.switchName, s.request.portName))
  {
    var t := Target(switch, port, cfg, mlagDomain);
    var records := Records(reply);
    MatchCountMeaning(records, t.switchName, t.portName);
    if AlreadyBound(reply, t.switchName, t.portName) {
      var b :| b in records && IsMatch(b, t.switchName, t.portName);
      var i :| 0 <= i < |records| && records[i] == b;
    }
  }

  /**
   * Exactly one post per port, in order, whatever the checks found and
   * whatever earlier posts returned: the i-th report is port i's request, its
   * notices are the matches of its target name, and it is bound iff NSX
   * answered 200.
   */
  lemma ReportsPerPort(hwId: string, switch: string, ports: PortMap, vlan: string, mlagDomain: string,
                       replies: seq<BindingReply>, statuses: seq<int>)
    requires BindablePorts(ports) && |replies| == |ports| && |statuses| == |ports|
    ensures var r := Reports(hwId, switch, ports, vlan, mlagDomain, replies, statuses);
      |r| == |ports| &&
      forall i :: 0 <= i < |ports| ==>
        r[i].port == ports[i].0 &&
        r[i].request == Request(hwId, switch, ports[i].0, ports[i].1, vlan, mlagDomain) &&
        (r[i].bound <==> statuses[i] == 200) &&
        (r[i].notices > 0 <==> AlreadyBound(replies[i], r[i].request.switchName, r[i].request.portName))
  {
    ReportsIndex(hwId, switch, ports, vlan, mlagDomain, replies, statuses);
    forall i | 0 <= i < |ports|
      ensures Bindable(ports[i].0, ports[i].1)
    {
    }
    forall i | 0 <= i < |ports| {
      PortStepMeaning(hwId, switch, ports[i].0, ports[i].1, vlan, mlagDomain, replies[i], statuses[i]);
    }
  }

  /**
   * An MLAG port-channel "Port-Channel<n>" binds as port "Mlag<n>" of switch
   * "mlag-<domain>"; the same port-channel without MLAG binds under its own names.
   */
  lemma TargetOfPortChannel(switch: string, n: string, cfg: PortConfig, mlagDomain: string)
    requires 'l' !in n
    ensures HasChannelId("Port-Channel" + n)
    ensures Target(switch, "Port-Channel" + n, cfg, mlagDomain) ==
      (if cfg.isMlag then Binding("mlag-" + mlagDomain, "Mlag" + n) else Binding(switch, "Port-Channel" + n))
  {
    ChannelIdOfPortChannel(n);
    assert ("Port-Channel" + n)[..4] == "Port";
  }

  /** The reports of one more port extend the reports of the ports before it by that port's step. */
  lemma ReportsSnoc(hwId: string, switch: string, ports: PortMap, vlan: string, mlagDomain: string,
                    replies: seq<BindingReply>, statuses: seq<int>, i: nat)
    requires BindablePorts(ports) && |replies| == |ports| && |statuses| == |ports| && i < |ports|
    ensures BindablePorts(ports[..i]) && BindablePorts(ports[..i + 1])
    ensures Reports(hwId, switch, ports[..i + 1], vlan, mlagDomain, replies[..i + 1], statuses[..i + 1]) ==
      Reports(hwId, switch, ports[..i], vlan, mlagDomain, replies[..i], statuses[..i]) +
      [PortStep(hwId, switch, ports[i].0, ports[i].1, vlan, mlagDomain, replies[i], statuses[i])]
  {
    assert ports[..i + 1][..i] == ports[..i];
    assert replies[..i + 1][..i] == replies[..i];
    assert statuses[..i + 1][..i] == statuses[..i];
  }

  /** `nsx_hardware_binding`: one check and one post per port, continuing after a failed post. */
  method HardwareBinding(hwId: string, switch: string, ports: PortMap, vlan: string, mlagDomain: string,
                         replies: seq<BindingReply>, statuses: seq<int>) returns (reports: seq<PortReport>)
    requires BindablePorts(ports) && |replies| == |ports| && |statuses| == |ports|
    ensures reports == Reports(hwId, switch, ports, vlan, mlagDomain, replies, statuses)
  {
    reports := [];
    var i := 0;
    while i < |ports|
      invariant 0 <= i <= |ports|
      invariant reports == Reports(hwId, switch, ports[..i], vlan, mlagDomain, replies[..i], statuses[..i])
    {
      var port, cfg := ports[i].0, ports[i].1;
      var target := Binding(switch, port);
      if IsPortChannel(port) && cfg.isMlag {
        target := Binding("mlag-" + mlagDomain, "Mlag" + ChannelId(port));
      }
      var notices := BindingCheck(replies[i], target.switchName, target.portName);
      var portVlan := if cfg.mode == Access then "0" else vlan;
      var request := BindingRequest(hwId, portVlan, target.switchName, target.portName);
      var bound := statuses[i] == 200;
      assert PortReport(port, request, notices, bound) ==
        PortStep(hwId, switch, port, cfg, vlan, mlagDomain, replies[i], statuses[i]);
      ReportsSnoc(hwId, switch, ports, vlan, mlagDomain, replies, statuses, i);
      reports := reports + [PortReport(port, request, notices, bound)];
      i := i + 1;
    }
    assert ports[..i] == ports && replies[..i] == replies && statuses[..i] == statuses;
  }

  /**
   * The final loop of each script: every switch's ports are bound in turn,
   * whatever happened on earlier switches (a switch with no ports gets no posts).
   */
  method BindAll(hwId: string, switches: seq<string>, maps: seq<PortMap>, vlan: string, mlagDomains: seq<string>,
                 replies: seq<seq<BindingReply>>, statuses: seq<seq<int>>) returns (all: seq<seq<PortReport>>)
    requires |maps| == |switches| && |mlagDomains| == |switches| && |replies| == |switches| && |statuses| == |switches|
    requires forall i :: 0 <= i < |switches| ==>
      BindablePorts(maps[i]) && |replies[i]| == |maps[i]| && |statuses[i]| == |maps[i]|
    ensures |all| == |switches|
    ensures forall i :: 0 <= i < |switches| ==>
      all[i] == Reports(hwId, switches[i], maps[i], vlan, mlagDomains[i], replies[i], statuses[i])
  {
    all := [];
    var i := 0;
    while i < |switches|
      invariant 0 <= i <= |switches| && |all| == i
      invariant forall k :: 0 <= k < i ==>
        all[k] == Reports(hwId, switches[k], maps[k], vlan, mlagDomains[k], replies[k], statuses[k])
    {
      var reports := HardwareBinding(hwId, switches[i], maps[i], vlan, mlagDomains[i], replies[i], statuses[i]);
      all := all + [reports];
      i := i + 1;
    }
  }
}
