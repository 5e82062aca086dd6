/**
 * The eAPI switchport pusher of eapi_add_hardware_binding.py:
 * `eapi_switchport_config_check` and `switchport_config_update`, and the
 * driver loop that runs them over the switches. The pusher walks a
 * switch's port map, checks each interface's running configuration before
 * configuring it, pushes ordered command batches, stops at the first
 * interface that already has configuration, and saves the configuration
 * with one `write` once every port went through.
 *
 * A switch is an object holding the running-configuration text it reports
 * per interface and the log of requests it has received.
 */
module Eapi {
  import opened Wrappers
  import opened Text
  import opened Ports

  /** A request sent to a switch: an enable-mode command or a batch of configuration lines. */
  datatype Request = Enable(command: string) | Config(lines: seq<string>)

  const ShowPrefix := "show running-config interfaces "

  /** The command that shows one interface's running configuration. */
  function Show(iface: string): Request {
    Enable(ShowPrefix + iface)
  }

  /** The command that saves the running configuration. */
  const Write := Enable("write")

  /** The running-configuration text a switch reports for each interface. */
  type Device = string -> string

  /** An interface already has configuration when its running-config output is longer than 26 characters. */
  predicate Present(output: string) {
    |output| > 26
  }

  class Switch {
    /** The running-config output of each interface, as the switch reports it. */
    const runningConfig: Device
    /** Every request the switch has received, in order. */
    var log: seq<Request>

    constructor(runningConfig: Device)
      ensures this.runningConfig == runningConfig && log == []
    {
      this.runningConfig := runningConfig;
      log := [];
    }

    /** `enable('show running-config interfaces ' + iface)` */
    method ShowRunningConfig(iface: string) returns (output: string)
      modifies this
      ensures log == old(log) + [Show(iface)]
      ensures output == runningConfig(iface)
    {
      log := log + [Show(iface)];
      output := runningConfig(iface);
    }

    /** `config(lines)` */
    method Configure(lines: seq<string>)
      modifies this
      ensures log == old(log) + [Config(lines)]
    {
      log := log + [Config(lines)];
    }

    /** `enable('write')` */
    method Save()
      modifies this
      ensures log == old(log) + [Write]
    {
      log := log + [Write];
    }
  }

  /** `eapi_switchport_config_check`: 1 when the interface already has configuration, else 0. */
  method ConfigCheck(sw: Switch, iface: string) returns (exception: int)
    modifies sw
    ensures sw.log == old(sw.log) + [Show(iface)]
    ensures exception == (if Present(sw.runningConfig(iface)) then 1 else 0)
  {
    var output := sw.ShowRunningConfig(iface);
    if |output| > 26 {
      exception := 1;
    } else {
      exception := 0;
    }
  }

  // ---------------------------------------------------------------------
  // The request sequence as a function of the device and the port map
  // ---------------------------------------------------------------------

  /** The batch that makes `m` a member of port-channel `id`. */
  function MemberBatch(m: string, id: string, cfg: PortConfig): seq<string> {
    ["interface " + m] + MemberLines(id, cfg)
  }

  /** The five-line mode batch; the VLAN line always carries the logical switch's VLAN. */
  function ModeBatch(port: string, cfg: PortConfig, vlan: string): seq<string>
    requires ValidMode(cfg.mode)
  {
    ["interface " + port, "description " + cfg.description] + ModeLines(cfg.mode, vlan) + ["no shutdown"]
  }

  /** The batch after the mode batch: `mlag <id>` for an MLAG port-channel, the speed for a physical port. */
  function ExtraBatches(port: string, cfg: PortConfig): seq<Request>
    requires IsPortChannel(port) ==> HasChannelId(port)
  {
    if IsPortChannel(port) then
      (if cfg.isMlag then [Config(["interface " + port, "mlag " + ChannelId(port)])] else [])
    else [Config(["interface " + port, "speed forced " + cfg.speed])]
  }

  /** Why a run ended: every port went through, an interface already had configuration, or a mode is unknown. */
  datatype Stop = Clean | Configured(iface: string) | InvalidMode(port: string)

  /** The requests a run sends, and how it ended. */
  datatype Run = Run(requests: seq<Request>, stop: Stop)

  /** The members of a port-channel in order: check each, then configure it; the first configured one ends the run. */
  function MemberRun(dev: Device, members: seq<string>, id: string, cfg: PortConfig): Run {
    if |members| == 0 then Run([], Clean)
    else
      var prev := MemberRun(dev, members[..|members| - 1], id, cfg);
      var m := members[|members| - 1];
      if !prev.stop.Clean? then prev
      else if Present(dev(m)) then Run(prev.requests + [Show(m)], Configured(m))
      else Run(prev.requests + [Show(m), Config(MemberBatch(m, id, cfg))], Clean)
  }

  /** One port: check it; for a port-channel run its members; then the mode batch and the extra batch. */
  function PortRun(dev: Device, port: string, cfg: PortConfig, vlan: string): Run
    requires IsPortChannel(port) ==> HasChannelId(port)
  {
    if Present(dev(port)) then Run([Show(port)], Configured(port))
    else
      var members := if IsPortChannel(port) then MemberRun(dev, cfg.localMembers, ChannelId(port), cfg) else Run([], Clean);
      if !members.stop.Clean? then Run([Show(port)] + members.requests, members.stop)
      else if !ValidMode(cfg.mode) then Run([Show(port)] + members.requests, InvalidMode(port))
      else Run([Show(port)] + members.requests + [Config(ModeBatch(port, cfg, vlan))] + ExtraBatches(port, cfg), Clean)
  }

  /** The ports in map order; the first port that does not go through ends the run. */
  function PortsRun(dev: Device, ports: PortMap, vlan: string): Run
    requires WellFormedPorts(ports)
  {
    if |ports| == 0 then Run([], Clean)
    else
      var prev := PortsRun(dev, ports[..|ports| - 1], vlan);
      var (port, cfg) := ports[|ports| - 1];
      if !prev.stop.Clean? then prev
      else
        var r := PortRun(dev, port, cfg, vlan);
        Run(prev.requests + r.requests, r.stop)
  }

  /** `switchport_config_update`: the ports' run, followed by one `write` when every port went through. */
  function Plan(dev: Device, ports: PortMap, vlan: string): Run
    requires WellFormedPorts(ports)
  {
    var r := PortsRun(dev, ports, vlan);
    if r.stop.Clean? then Run(r.requests + [Write], Clean) else r
  }

  lemma {:induction false} MemberRunStop(dev: Device, members: seq<string>, k: nat, id: string, cfg: PortConfig)
    requires k <= |members| && !MemberRun(dev, members[..k], id, cfg).stop.Clean?
    ensures MemberRun(dev, members, id, cfg) == MemberRun(dev, members[..k], id, cfg)
    decreases |members|
  {
    if k < |members| {
      var init := members[..|members| - 1];
      assert init[..k] == members[..k];
      MemberRunStop(dev, init, k, id, cfg);
    } else {
      assert members[..k] == members;
    }
  }

  lemma {:induction false} PortsRunStop(dev: Device, ports: PortMap, k: nat, vlan: string)
    requires WellFormedPorts(ports) && k <= |ports|
    requires !PortsRun(dev, ports[..k], vlan).stop.Clean?
    ensures PortsRun(dev, ports, vlan) == PortsRun(dev, ports[..k], vlan)
    decreases |ports|
  {
    if k < |ports| {
      var init := ports[..|ports| - 1];
      assert init[..k] == ports[..k];
      PortsRunStop(dev, init, k, vlan);
    } else {
      assert ports[..k] == ports;
    }
  }

  /**
   * Lines 176-190: checks each member of a port-channel and, when it has no
   * configuration, makes it a member; the first configured member ends the loop.
   */
  method ConfigureMembers(sw: Switch, members: seq<string>, id: string, cfg: PortConfig) returns (stop: Stop)
    modifies sw
    ensures sw.log == old(sw.log) + MemberRun(sw.runningConfig, members, id, cfg).requests
    ensures stop == MemberRun(sw.runningConfig, members, id, cfg).stop
  {
    ghost var dev := sw.runningConfig;
    var j := 0;
    while j < |members|
      invariant 0 <= j <= |members|
      invariant MemberRun(dev, members[..j], id, cfg).stop.Clean?
      invariant sw.log == old(sw.log) + MemberRun(dev, members[..j], id, cfg).requests
    {
      var m := members[j];
      assert members[..j + 1][..j] == members[..j];
      var hit := ConfigCheck(sw, m);
      if hit > 0 {
        MemberRunStop(dev, members, j + 1, id, cfg);
        return Configured(m);
      }
      sw.Configure(MemberBatch(m, id, cfg));
      j := j + 1;
    }
    assert members[..j] == members;
    return Clean;
  }

  /** Lines 165-275: one port of `switchport_config_update`. */
  method ConfigurePort(sw: Switch, port: string, cfg: PortConfig, vlan: string) returns (stop: Stop)
    requires IsPortChannel(port) ==> HasChannelId(port)
    modifies sw
    ensures sw.log == old(sw.log) + PortRun(sw.runningConfig, port, cfg, vlan).requests
    ensures stop == PortRun(sw.runningConfig, port, cfg, vlan).stop
  {
    ghost var dev := sw.runningConfig;
    ghost var log0 := sw.log;
    ghost var run := PortRun(dev, port, cfg, vlan);
    var hit := ConfigCheck(sw, port);
    if hit > 0 {
      return Configured(port);
    }
    ghost var members := if IsPortChannel(port) then MemberRun(dev, cfg.localMembers, ChannelId(port), cfg) else Run([], Clean);
    if IsPortChannel(port) {
      var id := ChannelId(port);
      var memberStop := ConfigureMembers(sw, cfg.localMembers, id, cfg);
      if !memberStop.Clean? {
        assert run == Run([Show(port)] + members.requests, members.stop);
        return memberStop;
      }
    } else {
      assert sw.log == log0 + [Show(port)] + members.requests;
    }
    if !ValidMode(cfg.mode) {
      assert run == Run([Show(port)] + members.requests, InvalidMode(port));
      return InvalidMode(port);
    }
    ghost var head := [Show(port)] + members.requests;
    ghost var tail := [Config(ModeBatch(port, cfg, vlan))] + ExtraBatches(port, cfg);
    assert sw.log == log0 + head;
    ConfigureMode(sw, port, cfg, vlan);
    assert sw.log == (log0 + head) + tail;
    AppendAssoc(head, [Config(ModeBatch(port, cfg, vlan))], ExtraBatches(port, cfg));
    assert run.requests == head + tail;
    AppendAssoc(log0, head, tail);
    return Clean;
  }

  /**
   * Lines 192-272: the mode batch, then `mlag <id>` on an MLAG port-channel
   * or the speed on a physical port.
   */
  method ConfigureMode(sw: Switch, port: string, cfg: PortConfig, vlan: string)
    requires IsPortChannel(port) ==> HasChannelId(port)
    requires ValidMode(cfg.mode)
    modifies sw
    ensures sw.log == old(sw.log) + ([Config(ModeBatch(port, cfg, vlan))] + ExtraBatches(port, cfg))
  {
    sw.Configure(ModeBatch(port, cfg, vlan));
    if IsPortChannel(port) {
      if cfg.isMlag {
        sw.Configure(["interface " + port, "mlag " + ChannelId(port)]);
      }
    }
    if !IsPortChannel(port) {
      sw.Configure(["interface " + port, "speed forced " + cfg.speed]);
    }
  }

  lemma AppendAssoc(a: seq<Request>, b: seq<Request>, c: seq<Request>)
    ensures a + b + c == a + (b + c)
  {
  }

  /**
   * `switchport_config_update` on a connected switch: the switch receives
   * exactly the requests of the plan, and the result says how the run ended
   * (`return 1` is Configured, `sys.exit` on a mode is InvalidMode).
   */
  method SwitchportConfigUpdate(sw: Switch, ports: PortMap, vlan: string) returns (stop: Stop)
    requires WellFormedPorts(ports)
    modifies sw
    ensures sw.log == old(sw.log) + Plan(sw.runningConfig, ports, vlan).requests
    ensures stop == Plan(sw.runningConfig, ports, vlan).stop
  {
    ghost var dev := sw.runningConfig;
    var i := 0;
    while i < |ports|
      invariant 0 <= i <= |ports|
      invariant PortsRun(dev, ports[..i], vlan).stop.Clean?
      invariant sw.log == old(sw.log) + PortsRun(dev, ports[..i], vlan).requests
    {
      assert ports[..i + 1][..i] == ports[..i];
      ghost var prev := PortsRun(dev, ports[..i], vlan);
      ghost var run := PortRun(dev, ports[i].0, ports[i].1, vlan);
      assert PortsRun(dev, ports[..i + 1], vlan) == Run(prev.requests + run.requests, run.stop);
      ghost var before := sw.log;
      var portStop := ConfigurePort(sw, ports[i].0, ports[i].1, vlan);
      assert sw.log == before + run.requests;
      AppendAssoc(old(sw.log), prev.requests, run.requests);
      if !portStop.Clean? {
        PortsRunStop(dev, ports, i + 1, vlan);
        return portStop;
      }
      i := i + 1;
    }
    assert ports[..i] == ports;
    ghost var before := sw.log;
    sw.Save();
    AppendAssoc(old(sw.log), PortsRun(dev, ports, vlan).requests, [Write]);
    return Clean;
  }

  // ---------------------------------------------------------------------
  // Properties of the request sequence
  // ---------------------------------------------------------------------

  /** The interface a batch configures: the name on its `interface` line. */
  function BatchTarget(lines: seq<string>): string {
    if |lines| > 0 && StartsWith(lines[0], "interface ") then lines[0][|"interface "|..] else ""
  }

  predicate IsShow(r: Request) {
    r.Enable? && StartsWith(r.command, ShowPrefix)
  }

  /**
   * Every enable command is a show, and every batch comes after a show of the
   * interface it configures.
   */
  predicate CheckedFirst(reqs: seq<Request>) {
    forall j :: 0 <= j < |reqs| ==>
      (reqs[j].Enable? ==> IsShow(reqs[j])) &&
      (reqs[j].Config? ==> exists i :: 0 <= i < j && reqs[i] == Show(BatchTarget(reqs[j].lines)))
  }

  lemma CheckedFirstAppend(a: seq<Request>, b: seq<Request>)
    requires CheckedFirst(a) && CheckedFirst(b)
    ensures CheckedFirst(a + b)
  {
    var c := a + b;
    forall j | 0 <= j < |c| && c[j].Config?
      ensures exists i :: 0 <= i < j && c[i] == Show(BatchTarget(c[j].lines))
    {
      if j < |a| {
        assert c[j] == a[j];
        var i :| 0 <= i < j && a[i] == Show(BatchTarget(a[j].lines));
        assert c[i] == a[i];
      } else {
        assert c[j] == b[j - |a|];
        var i :| 0 <= i < j - |a| && b[i] == Show(BatchTarget(b[j - |a|].lines));
        assert c[i + |a|] == b[i];
      }
    }
    forall j | 0 <= j < |c| && c[j].Enable? ensures IsShow(c[j]) {
      if j < |a| {
        assert c[j] == a[j];
      } else {
        assert c[j] == b[j - |a|];
      }
    }
  }

  lemma ShowIsShow(x: string)
    ensures IsShow(Show(x))
  {
    assert (ShowPrefix + x)[..|ShowPrefix|] == ShowPrefix;
  }

  lemma BatchTargetOf(x: string, rest: seq<string>)
    ensures BatchTarget(["interface " + x] + rest) == x
  {
    var line := "interface " + x;
    assert line[..|"interface "|] == "interface ";
    assert line[|"interface "|..] == x;
  }

  /** A request list that starts with a show of `x` and otherwise holds only batches for `x`. */
  lemma {:induction false} ShowThenBatches(x: string, batches: seq<Request>)
    requires forall k :: 0 <= k < |batches| ==> batches[k].Config? && BatchTarget(batches[k].lines) == x
    ensures CheckedFirst([Show(x)] + batches)
  {
    ShowIsShow(x);
    var c := [Show(x)] + batches;
    forall j | 0 <= j < |c| && c[j].Config?
      ensures exists i :: 0 <= i < j && c[i] == Show(BatchTarget(c[j].lines))
    {
      assert c[j] == batches[j - 1];
      assert c[0] == Show(x);
    }
  }

  lemma {:induction false} MemberRunChecked(dev: Device, members: seq<string>, id: string, cfg: PortConfig)
    ensures CheckedFirst(MemberRun(dev, members, id, cfg).requests)
  {
    if |members| > 0 {
      var prev := MemberRun(dev, members[..|members| - 1], id, cfg);
      var m := members[|members| - 1];
      MemberRunChecked(dev, members[..|members| - 1], id, cfg);
      if prev.stop.Clean? {
        BatchTargetOf(m, MemberLines(id, cfg));
        assert BatchTarget(MemberBatch(m, id, cfg)) == m;
        assert [Show(m)] + [Config(MemberBatch(m, id, cfg))] == [Show(m), Config(MemberBatch(m, id, cfg))];
        if Present(dev(m)) {
          ShowThenBatches(m, []);
          assert [Show(m)] + [] == [Show(m)];
          CheckedFirstAppend(prev.requests, [Show(m)]);
        } else {
          ShowThenBatches(m, [Config(MemberBatch(m, id, cfg))]);
          CheckedFirstAppend(prev.requests, [Show(m), Config(MemberBatch(m, id, cfg))]);
        }
      }
    }
  }

  /** Every batch a port's configuration sends after its show is addressed to that port. */
  lemma PortBatchesTarget(port: string, cfg: PortConfig, vlan: string)
    requires IsPortChannel(port) ==> HasChannelId(port)
    requires ValidMode(cfg.mode)
    ensures var tail := [Config(ModeBatch(port, cfg, vlan))] + ExtraBatches(port, cfg);
      forall k :: 0 <= k < |tail| ==> tail[k].Config? && BatchTarget(tail[k].lines) == port
  {
    BatchTargetOf(port, ModeBatch(port, cfg, vlan)[1..]);
    assert ModeBatch(port, cfg, vlan) == ["interface " + port] + ModeBatch(port, cfg, vlan)[1..];
    if IsPortChannel(port) && cfg.isMlag {
      BatchTargetOf(port, ["mlag " + ChannelId(port)]);
    } else if !IsPortChannel(port) {
      BatchTargetOf(port, ["speed forced " + cfg.speed]);
    }
  }

  /** Batches for `x` may follow any checked list that opens with a show of `x`. */
  lemma ShowFrontThenBatches(x: string, front: seq<Request>, batches: seq<Request>)
    requires CheckedFirst(front) && |front| > 0 && front[0] == Show(x)
    requires forall k :: 0 <= k < |batches| ==> batches[k].Config? && BatchTarget(batches[k].lines) == x
    ensures CheckedFirst(front + batches)
  {
    var c := front + batches;
    forall j | 0 <= j < |c| ensures (c[j].Enable? ==> IsShow(c[j])) &&
      (c[j].Config? ==> exists i :: 0 <= i < j && c[i] == Show(BatchTarget(c[j].lines)))
    {
      if j < |front| {
        assert c[j] == front[j];
        if c[j].Config? {
          var i :| 0 <= i < j && front[i] == Show(BatchTarget(front[j].lines));
          assert c[i] == front[i];
        }
      } else {
        assert c[j] == batches[j - |front|];
        assert c[0] == Show(x);
      }
    }
  }

  lemma PortRunChecked(dev: Device, port: string, cfg: PortConfig, vlan: string)
    requires IsPortChannel(port) ==> HasChannelId(port)
    ensures CheckedFirst(PortRun(dev, port, cfg, vlan).requests)
  {
    ShowThenBatches(port, []);
    assert [Show(port)] + [] == [Show(port)];
    if !Present(dev(port)) {
      var members := if IsPortChannel(port) then MemberRun(dev, cfg.localMembers, ChannelId(port), cfg) else Run([], Clean);
      if IsPortChannel(port) {
        MemberRunChecked(dev, cfg.localMembers, ChannelId(port), cfg);
      }
      CheckedFirstAppend([Show(port)], members.requests);
      var front := [Show(port)] + members.requests;
      if members.stop.Clean? && ValidMode(cfg.mode) {
        var tail := [Config(ModeBatch(port, cfg, vlan))] + ExtraBatches(port, cfg);
        PortBatchesTarget(port, cfg, vlan);
        ShowFrontThenBatches(port, front, tail);
        assert front + tail == [Show(port)] + members.requests + [Config(ModeBatch(port, cfg, vlan))] + ExtraBatches(port, cfg);
      }
    }
  }

  lemma {:induction false} PortsRunChecked(dev: Device, ports: PortMap, vlan: string)
    requires WellFormedPorts(ports)
    ensures CheckedFirst(PortsRun(dev, ports, vlan).requests)
  {
    if |ports| > 0 {
      var init := ports[..|ports| - 1];
      var (port, cfg) := ports[|ports| - 1];
      PortsRunChecked(dev, init, vlan);
      if PortsRun(dev, init, vlan).stop.Clean? {
        PortRunChecked(dev, port, cfg, vlan);
        CheckedFirstAppend(PortsRun(dev, init, vlan).requests, PortRun(dev, port, cfg, vlan).requests);
      }
    }
  }

  /** `write` is not a show. */
  lemma WriteIsNotShow()
    ensures !IsShow(Write)
  {
  }

  /**
   * Check before configure: in the requests a switch receives, every batch
   * comes after a show of the interface it configures. `write` is sent at most
   * once, as the very last request, and exactly when every port went through.
   */
  lemma PlanOrder(dev: Device, ports: PortMap, vlan: string)
    requires WellFormedPorts(ports)
    ensures var p := Plan(dev, ports, vlan);
      forall j :: 0 <= j < |p.requests| && p.requests[j].Config? ==>
        exists i :: 0 <= i < j && p.requests[i] == Show(BatchTarget(p.requests[j].lines))
    ensures var p := Plan(dev, ports, vlan);
      p.stop.Clean? ==> (|p.requests| > 0 && p.requests[|p.requests| - 1] == Write &&
                         Write !in p.requests[..|p.requests| - 1])
    ensures var p := Plan(dev, ports, vlan);
      !p.stop.Clean? ==> Write !in p.requests
  {
    var r := PortsRun(dev, ports, vlan);
    PortsRunChecked(dev, ports, vlan);
    WriteIsNotShow();
    if r.stop.Clean? {
      var p := r.requests + [Write];
      assert p[..|p| - 1] == r.requests;
      forall j | 0 <= j < |p| && p[j].Config?
        ensures exists i :: 0 <= i < j && p[i] == Show(BatchTarget(p[j].lines))
      {
        assert p[j] == r.requests[j];
        var i :| 0 <= i < j && r.requests[i] == Show(BatchTarget(r.requests[j].lines));
        assert p[i] == r.requests[i];
      }
    }
  }

  /** Neither the port nor, for a port-channel, any of its members has configuration. */
  predicate PortClear(dev: Device, port: string, cfg: PortConfig) {
    !Present(dev(port)) && (IsPortChannel(port) ==> forall m :: m in cfg.localMembers ==> !Present(dev(m)))
  }

  /** No checked interface has configuration: the ports, and the members of each port-channel. */
  predicate AllClear(dev: Device, ports: PortMap) {
    forall i :: 0 <= i < |ports| ==> PortClear(dev, ports[i].0, ports[i].1)
  }

  lemma {:induction false} MemberRunClean(dev: Device, members: seq<string>, id: string, cfg: PortConfig)
    ensures MemberRun(dev, members, id, cfg).stop.Clean? <==> forall m :: m in members ==> !Present(dev(m))
    ensures !MemberRun(dev, members, id, cfg).stop.Clean? ==>
      var s := MemberRun(dev, members, id, cfg).stop;
      s.Configured? && s.iface in members && Present(dev(s.iface))
  {
    if |members| > 0 {
      var init := members[..|members| - 1];
      MemberRunClean(dev, init, id, cfg);
      assert members == init + [members[|members| - 1]];
    }
  }

  lemma PortRunClean(dev: Device, port: string, cfg: PortConfig, vlan: string)
    requires IsPortChannel(port) ==> HasChannelId(port)
    ensures PortRun(dev, port, cfg, vlan).stop.Clean? <==> ValidMode(cfg.mode) && PortClear(dev, port, cfg)
  {
    if IsPortChannel(port) {
      MemberRunClean(dev, cfg.localMembers, ChannelId(port), cfg);
    }
  }

  /** Both conditions hold for a map exactly when they hold for all but its last port and for that port. */
  lemma ClearSnoc(dev: Device, ports: PortMap)
    requires |ports| > 0
    ensures var init, last := ports[..|ports| - 1], ports[|ports| - 1];
      (ModesValid(ports) && AllClear(dev, ports)) <==>
      (ModesValid(init) && AllClear(dev, init) && ValidMode(last.1.mode) && PortClear(dev, last.0, last.1))
  {
    var init := ports[..|ports| - 1];
    assert forall i :: 0 <= i < |init| ==> init[i] == ports[i];
  }

  /** The switch is saved exactly when every mode is known and no checked interface already has configuration. */
  lemma {:induction false} PlanSaved(dev: Device, ports: PortMap, vlan: string)
    requires WellFormedPorts(ports)
    ensures Plan(dev, ports, vlan).stop.Clean? <==> ModesValid(ports) && AllClear(dev, ports)
  {
    PortsRunClean(dev, ports, vlan);
  }

  lemma {:induction false} PortsRunClean(dev: Device, ports: PortMap, vlan: string)
    requires WellFormedPorts(ports)
    ensures PortsRun(dev, ports, vlan).stop.Clean? <==> ModesValid(ports) && AllClear(dev, ports)
    decreases |ports|
  {
    if |ports| > 0 {
      var init := ports[..|ports| - 1];
      var (port, cfg) := ports[|ports| - 1];
      assert WellFormedPorts(init);
      PortsRunClean(dev, init, vlan);
      PortRunClean(dev, port, cfg, vlan);
      ClearSnoc(dev, ports);
    }
  }

  /** On an interface that already has configuration, the run ends with that interface's show and nothing after. */
  lemma {:induction false} PlanConfigured(dev: Device, ports: PortMap, vlan: string)
    requires WellFormedPorts(ports)
    ensures var p := Plan(dev, ports, vlan);
      p.stop.Configured? ==> (Present(dev(p.stop.iface)) &&
                              |p.requests| > 0 && p.requests[|p.requests| - 1] == Show(p.stop.iface))
    decreases |ports|
  {
    if |ports| > 0 {
      var init := ports[..|ports| - 1];
      var (port, cfg) := ports[|ports| - 1];
      PlanConfigured(dev, init, vlan);
      if PortsRun(dev, init, vlan).stop.Clean? && !Present(dev(port)) && IsPortChannel(port) {
        MemberRunConfigured(dev, cfg.localMembers, ChannelId(port), cfg);
      }
    }
  }

  lemma {:induction false} MemberRunConfigured(dev: Device, members: seq<string>, id: string, cfg: PortConfig)
    ensures var r := MemberRun(dev, members, id, cfg);
      r.stop.Configured? ==> Present(dev(r.stop.iface)) && |r.requests| > 0 && r.requests[|r.requests| - 1] == Show(r.stop.iface)
    ensures MemberRun(dev, members, id, cfg).stop.InvalidMode? == false
  {
    if |members| > 0 {
      MemberRunConfigured(dev, members[..|members| - 1], id, cfg);
    }
  }

  /**
   * The requests of a port-channel's members when none is configured yet:
   * for each member in order, its `show` and then its batch.
   */
  function CleanMembers(members: seq<string>, id: string, cfg: PortConfig): (r: seq<Request>)
    ensures |r| == 2 * |members|
    ensures forall k :: 0 <= k < |members| ==>
      r[2 * k] == Show(members[k]) && r[2 * k + 1] == Config(MemberBatch(members[k], id, cfg))
  {
    if |members| == 0 then []
    else
      var tail := CleanMembers(members[1..], id, cfg);
      assert forall k :: 1 <= k < |members| ==> members[k] == members[1..][k - 1];
      [Show(members[0]), Config(MemberBatch(members[0], id, cfg))] + tail
  }

  lemma {:induction false} CleanMembersLast(members: seq<string>, id: string, cfg: PortConfig)
    requires |members| > 0
    ensures var m := members[|members| - 1];
      CleanMembers(members, id, cfg) == CleanMembers(members[..|members| - 1], id, cfg) + [Show(m), Config(MemberBatch(m, id, cfg))]
    decreases |members|
  {
    var n := |members|;
    if n > 1 {
      var tail := members[1..];
      CleanMembersLast(tail, id, cfg);
      assert tail[..n - 2] == members[..n - 1][1..];
      assert tail[n - 2] == members[n - 1];
      assert members[..n - 1][0] == members[0];
    }
  }

  /** With no member configured yet, the members' run sends exactly their shows and batches, in order. */
  lemma {:induction false} MemberRunBatches(dev: Device, members: seq<string>, id: string, cfg: PortConfig)
    requires forall m :: m in members ==> !Present(dev(m))
    ensures MemberRun(dev, members, id, cfg) == Run(CleanMembers(members, id, cfg), Clean)
  {
    if |members| > 0 {
      var init, m := members[..|members| - 1], members[|members| - 1];
      MemberRunBatches(dev, init, id, cfg);
      CleanMembersLast(members, id, cfg);
    }
  }

  /**
   * An unknown mode on a port-channel is found only after its members were
   * checked and configured: the run is the port's `show`, every member's
   * `show` and batch, and nothing else — no mode batch is sent.
   */
  lemma ModeAbortAfterMembers(dev: Device, port: string, cfg: PortConfig, vlan: string)
    requires IsPortChannel(port) && HasChannelId(port) && !ValidMode(cfg.mode)
    requires !Present(dev(port)) && forall m :: m in cfg.localMembers ==> !Present(dev(m))
    ensures PortRun(dev, port, cfg, vlan) ==
      Run([Show(port)] + CleanMembers(cfg.localMembers, ChannelId(port), cfg), InvalidMode(port))
  {
    MemberRunBatches(dev, cfg.localMembers, ChannelId(port), cfg);
  }

  // ---------------------------------------------------------------------
  // The driver (lines 402-407)
  // ---------------------------------------------------------------------

  /** A switch with an empty port map is skipped; any other is run. */
  datatype SwitchResult = Skipped | Ran(stop: Stop)

  /**
   * What one switch's turn leaves: skipped with its log untouched when it has
   * no ports, otherwise run with the plan's outcome and the plan's requests
   * appended to its log.
   */
  predicate SwitchDone(r: SwitchResult, dev: Device, ports: PortMap, vlan: string, log0: seq<Request>, log: seq<Request>)
    requires WellFormedPorts(ports)
  {
    (|ports| == 0 ==> r == Skipped && log == log0) &&
    (|ports| > 0 ==> r == Ran(Plan(dev, ports, vlan).stop) && log == log0 + Plan(dev, ports, vlan).requests)
  }

  /**
   * Lines 402-407: runs the pusher on each switch with ports, in order, and
   * ends the whole run at the first switch that does not go through. Later
   * switches receive nothing.
   */
  method UpdateSwitches(devices: seq<Switch>, maps: seq<PortMap>, vlan: string) returns (results: seq<SwitchResult>)
    requires |maps| == |devices|
    requires forall i, j :: 0 <= i < j < |devices| ==> devices[i] != devices[j]
    requires forall i :: 0 <= i < |maps| ==> WellFormedPorts(maps[i])
    modifies set d | d in devices
    ensures |results| <= |devices|
    ensures forall i :: 0 <= i < |results| ==>
      SwitchDone(results[i], devices[i].runningConfig, maps[i], vlan, old(devices[i].log), devices[i].log)
    ensures forall i :: |results| <= i < |devices| ==> devices[i].log == old(devices[i].log)
    ensures forall i :: 0 <= i < |results| - 1 ==> !(results[i].Ran? && !results[i].stop.Clean?)
    ensures |results| < |devices| ==> |results| > 0 && results[|results| - 1].Ran? && !results[|results| - 1].stop.Clean?
  {
    results := [];
    var i := 0;
    while i < |devices|
      invariant 0 <= i <= |devices| && |results| == i
      invariant forall k :: 0 <= k < i ==>
        SwitchDone(results[k], devices[k].runningConfig, maps[k], vlan, old(devices[k].log), devices[k].log)
      invariant forall k :: i <= k < |devices| ==> devices[k].log == old(devices[k].log)
      invariant forall k :: 0 <= k < i ==> !(results[k].Ran? && !results[k].stop.Clean?)
    {
      var d := devices[i];
      if |maps[i]| == 0 {
        results := results + [Skipped];
      } else {
        var stop := SwitchportConfigUpdate(d, maps[i], vlan);
        results := results + [Ran(stop)];
        if !stop.Clean? {
          return;
        }
      }
      assert SwitchDone(results[i], d.runningConfig, maps[i], vlan, old(d.log), d.log);
      i := i + 1;
    }
  }
}
