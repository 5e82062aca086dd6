/**
 * The CVP configlet builder and merger, `switch_configlet_update` in
 * cvp_add_hardware_binding.py, and the driver loop that calls it for each
 * switch. The builder renders one stanza per interface from a switch's port
 * map, refuses to touch a configlet that already mentions one of the
 * interfaces, merges the new stanzas into the existing configlet text
 * (port-channels first, each group sorted by its numeric interface key),
 * and either updates the existing configlet with its own key or creates
 * a new one.
 */
module Configlet {
  import opened Wrappers
  import opened Text
  import opened InterfaceKey
  import opened StableSort
  import opened Ports

  /** The line break and indentation that start each directive of a stanza. */
  const Indent := "\n   "
  /** The blank line between two stanzas of a configlet. */
  const Separator := "\n\n"

  // ---------------------------------------------------------------------
  // Stanza rendering
  // ---------------------------------------------------------------------

  function Indented(lines: seq<string>): string {
    if |lines| == 0 then "" else Indent + lines[0] + Indented(lines[1..])
  }

  /** "interface <iface>" followed by one indented line per directive. */
  function Stanza(iface: string, lines: seq<string>): string {
    "interface " + iface + Indented(lines)
  }

  /** The directives of a port-channel; an MLAG port-channel also carries `mlag <id>`. */
  function ChannelLines(id: string, cfg: PortConfig, vlan: string): seq<string>
    requires ValidMode(cfg.mode)
  {
    ["description " + cfg.description] + ModeLines(cfg.mode, vlan)
    + (if cfg.isMlag then ["mlag " + id] else []) + ["no shutdown"]
  }

  /** The directives of a physical port: description, forced speed, the mode lines, no shutdown. */
  function PhysicalLines(cfg: PortConfig, vlan: string): seq<string>
    requires ValidMode(cfg.mode)
  {
    ["description " + cfg.description, "speed forced " + cfg.speed] + ModeLines(cfg.mode, vlan) + ["no shutdown"]
  }

  function MemberStanza(member: string, id: string, cfg: PortConfig): string {
    Stanza(member, MemberLines(id, cfg))
  }

  /** One member stanza per local member, in member order. */
  function MemberStanzas(members: seq<string>, id: string, cfg: PortConfig): (r: seq<string>)
    ensures |r| == |members|
    ensures forall k :: 0 <= k < |members| ==> r[k] == MemberStanza(members[k], id, cfg)
  {
    if |members| == 0 then []
    else MemberStanzas(members[..|members| - 1], id, cfg) + [MemberStanza(members[|members| - 1], id, cfg)]
  }

  /** The new stanzas, grouped as the script groups them, or the port whose mode is unknown. */
  datatype Rendering = Stanzas(eth: seq<string>, pc: seq<string>) | InvalidMode(port: string)

  /** The stanzas of one port: a port-channel's member stanzas go to the Ethernet group. */
  function PortStanzas(port: string, cfg: PortConfig, vlan: string): Rendering
    requires IsPortChannel(port) ==> HasChannelId(port)
  {
    if !ValidMode(cfg.mode) then InvalidMode(port)
    else if IsPortChannel(port) then
      var id := ChannelId(port);
      Stanzas(MemberStanzas(cfg.localMembers, id, cfg), [Stanza(port, ChannelLines(id, cfg, vlan))])
    else Stanzas([Stanza(port, PhysicalLines(cfg, vlan))], [])
  }

  /** The stanzas of all ports in map order; the first unknown mode ends the run. */
  function NewStanzas(ports: PortMap, vlan: string): Rendering
    requires WellFormedPorts(ports)
  {
    if |ports| == 0 then Stanzas([], [])
    else
      var last := ports[|ports| - 1];
      match NewStanzas(ports[..|ports| - 1], vlan)
      case InvalidMode(p) => InvalidMode(p)
      case Stanzas(eth, pc) =>
        match PortStanzas(last.0, last.1, vlan)
        case InvalidMode(p) => InvalidMode(p)
        case Stanzas(eth', pc') => Stanzas(eth + eth', pc + pc')
  }

  /** Once a prefix of the map has hit an unknown mode, the whole map renders to that error. */
  lemma {:induction false} NewStanzasStop(ports: PortMap, k: nat, vlan: string)
    requires WellFormedPorts(ports) && k <= |ports|
    requires NewStanzas(ports[..k], vlan).InvalidMode?
    ensures NewStanzas(ports, vlan) == NewStanzas(ports[..k], vlan)
    decreases |ports|
  {
    if k < |ports| {
      var init := ports[..|ports| - 1];
      assert init[..k] == ports[..k];
      NewStanzasStop(init, k, vlan);
    } else {
      assert ports[..k] == ports;
    }
  }

  /**
   * The run stops on a mode exactly when some port's mode is unknown, and the
   * port it names is the first such port of the map.
   */
  lemma {:induction false} NewStanzasInvalidIff(ports: PortMap, vlan: string)
    requires WellFormedPorts(ports)
    ensures NewStanzas(ports, vlan).InvalidMode? <==> !ModesValid(ports)
    ensures NewStanzas(ports, vlan).InvalidMode? ==>
      exists i :: 0 <= i < |ports| && ports[i].0 == NewStanzas(ports, vlan).port &&
        !ValidMode(ports[i].1.mode) && ModesValid(ports[..i])
    decreases |ports|
  {
    if |ports| > 0 {
      var init := ports[..|ports| - 1];
      NewStanzasInvalidIff(init, vlan);
      if ModesValid(init) && ValidMode(ports[|ports| - 1].1.mode) {
        forall i | 0 <= i < |ports| ensures ValidMode(ports[i].1.mode) {
          if i < |ports| - 1 {
            assert ports[i] == init[i];
          }
        }
      }
      if !ModesValid(init) {
        var i :| 0 <= i < |init| && init[i].0 == NewStanzas(init, vlan).port &&
          !ValidMode(init[i].1.mode) && ModesValid(init[..i]);
        assert ports[i] == init[i] && ports[..i] == init[..i];
      } else if !ValidMode(ports[|ports| - 1].1.mode) {
        assert ports[..|ports| - 1] == init;
      }
    }
  }

  /** Lines 142-143: the member loop appends one member stanza per local member. */
  method RenderMembers(eth: seq<string>, members: seq<string>, id: string, cfg: PortConfig)
    returns (eth': seq<string>)
    ensures eth' == eth + MemberStanzas(members, id, cfg)
  {
    eth' := eth;
    var j := 0;
    while j < |members|
      invariant 0 <= j <= |members|
      invariant eth' == eth + MemberStanzas(members[..j], id, cfg)
    {
      assert members[..j + 1][..j] == members[..j];
      eth' := eth' + [MemberStanza(members[j], id, cfg)];
      j := j + 1;
    }
    assert members[..j] == members;
  }

  /** Rendering one more port extends the rendering of the ports before it. */
  lemma NewStanzasSnoc(ports: PortMap, i: nat, vlan: string)
    requires WellFormedPorts(ports) && i < |ports|
    ensures WellFormedPorts(ports[..i]) && WellFormedPorts(ports[..i + 1])
    ensures NewStanzas(ports[..i + 1], vlan) ==
      match NewStanzas(ports[..i], vlan)
      case InvalidMode(p) => InvalidMode(p)
      case Stanzas(eth, pc) =>
        match PortStanzas(ports[i].0, ports[i].1, vlan)
        case InvalidMode(p) => InvalidMode(p)
        case Stanzas(eth', pc') => Stanzas(eth + eth', pc + pc')
  {
    assert ports[..i + 1][..i] == ports[..i];
  }

  /**
   * Lines 139-172: renders the stanzas port by port, growing the Ethernet and
   * port-channel lists, and stops at the first unknown mode.
   */
  method RenderStanzas(ports: PortMap, vlan: string) returns (r: Rendering)
    requires WellFormedPorts(ports)
    ensures r == NewStanzas(ports, vlan)
  {
    var eth: seq<string> := [];
    var pc: seq<string> := [];
    var i := 0;
    while i < |ports|
      invariant 0 <= i <= |ports|
      invariant NewStanzas(ports[..i], vlan) == Stanzas(eth, pc)
    {
      var port, cfg := ports[i].0, ports[i].1;
      NewStanzasSnoc(ports, i, vlan);
      if IsPortChannel(port) {
        var id := ChannelId(port);
        eth := RenderMembers(eth, cfg.localMembers, id, cfg);
        if !ValidMode(cfg.mode) {
          NewStanzasStop(ports, i + 1, vlan);
          return InvalidMode(port);
        }
        pc := pc + [Stanza(port, ChannelLines(id, cfg, vlan))];
      } else {
        if !ValidMode(cfg.mode) {
          NewStanzasStop(ports, i + 1, vlan);
          return InvalidMode(port);
        }
        eth := eth + [Stanza(port, PhysicalLines(cfg, vlan))];
      }
      i := i + 1;
    }
    assert ports[..i] == ports;
    return Stanzas(eth, pc);
  }

  /** A stanza splits back, on its indentation, into its `interface` line and its directives. */
  lemma {:induction false} StanzaLines(iface: string, lines: seq<string>)
    requires '\n' !in iface
    requires forall k :: 0 <= k < |lines| ==> '\n' !in lines[k]
    ensures Split(Stanza(iface, lines), Indent) == ["interface " + iface] + lines
  {
    IndentedLines("interface " + iface, lines);
  }

  lemma {:induction false} IndentedLines(head: string, lines: seq<string>)
    requires '\n' !in head
    requires forall k :: 0 <= k < |lines| ==> '\n' !in lines[k]
    ensures Split(head + Indented(lines), Indent) == [head] + lines
    decreases |lines|
  {
    if |lines| == 0 {
      assert head + Indented(lines) == head;
      SplitAbsent(head, Indent);
    } else {
      var rest := lines[0] + Indented(lines[1..]);
      assert head + Indented(lines) == head + Indent + rest;
      SplitAtPrefix(head, rest, Indent);
      IndentedLines(lines[0], lines[1..]);
      assert lines == [lines[0]] + lines[1..];
    }
  }

  /** A rendered stanza of a valid interface name has a sort key, the one its name gives. */
  lemma StanzaHasKey(iface: string, lines: seq<string>)
    requires ValidIdentity(iface) && |lines| > 0
    ensures HasKey(Stanza(iface, lines)) && SortKey(Stanza(iface, lines)) == NameKey(iface)
  {
    var rest := Indented(lines);
    assert rest == Indent + (lines[0] + Indented(lines[1..]));
    assert rest[..|Indent|] == Indent;
    StanzaKey(iface, rest);
  }

  /** The member stanzas of valid member names all have sort keys. */
  lemma MemberStanzasHaveKeys(members: seq<string>, id: string, cfg: PortConfig)
    requires forall m :: m in members ==> ValidIdentity(m)
    ensures forall b :: b in MemberStanzas(members, id, cfg) ==> HasKey(b)
  {
    var r := MemberStanzas(members, id, cfg);
    forall b | b in r ensures HasKey(b) {
      var k :| 0 <= k < |r| && r[k] == b;
      assert members[k] in members;
      StanzaHasKey(members[k], MemberLines(id, cfg));
    }
  }

  /** The stanzas of one port with valid names all have sort keys. */
  lemma PortStanzasHaveKeys(port: string, cfg: PortConfig, vlan: string)
    requires IsPortChannel(port) ==> HasChannelId(port)
    requires ValidIdentity(port)
    requires IsPortChannel(port) ==> forall m :: m in cfg.localMembers ==> ValidIdentity(m)
    requires PortStanzas(port, cfg, vlan).Stanzas?
    ensures forall b :: b in PortStanzas(port, cfg, vlan).eth ==> HasKey(b)
    ensures forall b :: b in PortStanzas(port, cfg, vlan).pc ==> HasKey(b)
  {
    if IsPortChannel(port) {
      var id := ChannelId(port);
      StanzaHasKey(port, ChannelLines(id, cfg, vlan));
      MemberStanzasHaveKeys(cfg.localMembers, id, cfg);
      assert PortStanzas(port, cfg, vlan) ==
        Stanzas(MemberStanzas(cfg.localMembers, id, cfg), [Stanza(port, ChannelLines(id, cfg, vlan))]);
    } else {
      StanzaHasKey(port, PhysicalLines(cfg, vlan));
      assert PortStanzas(port, cfg, vlan) == Stanzas([Stanza(port, PhysicalLines(cfg, vlan))], []);
    }
  }

  /** With valid interface names, every new stanza has a sort key, so the script's sort cannot fail on them. */
  lemma {:induction false} NewStanzasHaveKeys(ports: PortMap, vlan: string)
    requires WellFormedPorts(ports) && NamesSortable(ports)
    requires NewStanzas(ports, vlan).Stanzas?
    ensures forall b :: b in NewStanzas(ports, vlan).eth ==> HasKey(b)
    ensures forall b :: b in NewStanzas(ports, vlan).pc ==> HasKey(b)
    decreases |ports|
  {
    if |ports| > 0 {
      var init := ports[..|ports| - 1];
      var (port, cfg) := ports[|ports| - 1];
      assert WellFormedPorts(init) && NamesSortable(init) by {
        forall i | 0 <= i < |init| ensures ports[i] == init[i] { }
      }
      NewStanzasHaveKeys(init, vlan);
      var before, r := NewStanzas(init, vlan), PortStanzas(port, cfg, vlan);
      assert NewStanzas(ports, vlan) == Stanzas(before.eth + r.eth, before.pc + r.pc);
      PortStanzasHaveKeys(port, cfg, vlan);
    }
  }

  /** A port-channel stanza carries `mlag <id>` exactly when the port is an MLAG port-channel. */
  lemma ChannelLinesMlag(id: string, cfg: PortConfig, vlan: string)
    requires ValidMode(cfg.mode)
    ensures ("mlag " + id in ChannelLines(id, cfg, vlan)) <==> cfg.isMlag
  {
    var lines := ChannelLines(id, cfg, vlan);
    var m := "mlag " + id;
    if !cfg.isMlag {
      forall k | 0 <= k < |lines| ensures lines[k] != m {
        assert lines[k][0] != 'm';
      }
    } else {
      assert lines[3] == m;
    }
  }

  // ---------------------------------------------------------------------
  // Conflict check (lines 176-190)
  // ---------------------------------------------------------------------

  /** The names checked for one port: a port-channel's members first, then the port itself. */
  function PortCheckNames(port: string, cfg: PortConfig): seq<string> {
    (if IsPortChannel(port) then cfg.localMembers else []) + [port]
  }

  /** All names checked, in the order the script checks them. */
  function CheckedNames(ports: PortMap): seq<string> {
    if |ports| == 0 then []
    else CheckedNames(ports[..|ports| - 1]) + PortCheckNames(ports[|ports| - 1].0, ports[|ports| - 1].1)
  }

  /** The first name that occurs in `text` as a substring. */
  function FirstContained(names: seq<string>, text: string): Option<string> {
    if |names| == 0 then None
    else if Contains(text, names[0]) then Some(names[0])
    else FirstContained(names[1..], text)
  }

  /** The first contained name is one that occurs with no earlier name occurring; none means no name occurs. */
  lemma {:induction false} FirstContainedMeaning(names: seq<string>, text: string)
    ensures FirstContained(names, text).None? <==> forall k :: 0 <= k < |names| ==> !Contains(text, names[k])
    ensures FirstContained(names, text).Some? ==>
      exists k :: 0 <= k < |names| && names[k] == FirstContained(names, text).value &&
        Contains(text, names[k]) && forall j :: 0 <= j < k ==> !Contains(text, names[j])
  {
    if |names| == 0 {
    } else if Contains(text, names[0]) {
      assert FirstContained(names, text) == Some(names[0]);
    } else {
      var tail := names[1..];
      FirstContainedMeaning(tail, text);
      assert FirstContained(names, text) == FirstContained(tail, text);
      if FirstContained(tail, text).None? {
        forall k | 0 <= k < |names| ensures !Contains(text, names[k]) {
          if k > 0 {
            assert names[k] == tail[k - 1];
          }
        }
      } else {
        var k :| 0 <= k < |tail| && tail[k] == FirstContained(tail, text).value &&
          Contains(text, tail[k]) && forall j :: 0 <= j < k ==> !Contains(text, tail[j]);
        assert names[k + 1] == tail[k];
        forall j | 0 <= j < k + 1 ensures !Contains(text, names[j]) {
          if j > 0 {
            assert names[j] == tail[j - 1];
          }
        }
      }
    }
  }

  lemma {:induction false} FirstContainedSkip(a: seq<string>, b: seq<string>, text: string)
    requires forall n :: n in a ==> !Contains(text, n)
    ensures FirstContained(a + b, text) == FirstContained(b, text)
  {
    if |a| > 0 {
      assert (a + b)[0] == a[0] && (a + b)[1..] == a[1..] + b;
      FirstContainedSkip(a[1..], b, text);
    } else {
      assert a + b == b;
    }
  }

  lemma {:induction false} CheckedNamesAppend(a: PortMap, b: PortMap)
    ensures CheckedNames(a + b) == CheckedNames(a) + CheckedNames(b)
    decreases |b|
  {
    if |b| == 0 {
      assert a + b == a;
    } else {
      var b' := b[..|b| - 1];
      assert (a + b)[..|a + b| - 1] == a + b';
      assert (a + b)[|a + b| - 1] == b[|b| - 1];
      CheckedNamesAppend(a, b');
    }
  }

  /** The names checked for the first n ports come first among the names checked for the whole map. */
  lemma {:induction false} CheckedNamesPrefix(ports: PortMap, n: nat)
    requires n <= |ports|
    ensures CheckedNames(ports[..n]) <= CheckedNames(ports)
    decreases |ports|
  {
    if n == |ports| {
      assert ports[..n] == ports;
    } else {
      var init := ports[..|ports| - 1];
      CheckedNamesPrefix(init, n);
      assert init[..n] == ports[..n];
      var whole := CheckedNames(ports);
      assert whole == CheckedNames(init) + PortCheckNames(ports[|ports| - 1].0, ports[|ports| - 1].1);
      var p := CheckedNames(ports[..n]);
      assert forall k :: 0 <= k < |p| ==> p[k] == CheckedNames(init)[k] == whole[k];
    }
  }

  /** Port i's names follow those of the ports before it, and all of these open the whole map's names. */
  lemma CheckedNamesStep(ports: PortMap, i: nat)
    requires i < |ports|
    ensures CheckedNames(ports[..i + 1]) == CheckedNames(ports[..i]) + PortCheckNames(ports[i].0, ports[i].1)
    ensures CheckedNames(ports[..i + 1]) <= CheckedNames(ports)
  {
    var front := ports[..i + 1];
    assert front[..i] == ports[..i];
    assert front[i] == ports[i];
    CheckedNamesPrefix(ports, i + 1);
  }

  /**
   * When no name before `mid` occurs, `mid[j]` is the first name of `mid`
   * that occurs, and `done + mid` opens `whole`, the first contained name of
   * `whole` is `mid[j]`.
   */
  lemma FirstContainedIn(done: seq<string>, mid: seq<string>, whole: seq<string>, j: nat, text: string)
    requires done + mid <= whole
    requires forall n :: n in done ==> !Contains(text, n)
    requires j < |mid| && Contains(text, mid[j])
    requires forall k :: 0 <= k < j ==> !Contains(text, mid[k])
    ensures FirstContained(whole, text) == Some(mid[j])
  {
    var rest := whole[|done + mid|..];
    assert whole == done + (mid + rest);
    FirstContainedSkip(done, mid + rest, text);
    forall n | n in mid[..j] ensures !Contains(text, n) {
      var k :| 0 <= k < j && mid[..j][k] == n;
    }
    assert mid + rest == mid[..j] + (mid[j..] + rest);
    FirstContainedSkip(mid[..j], mid[j..] + rest, text);
    assert (mid[j..] + rest)[0] == mid[j];
  }

  /** Lines 180-181: the index of the first member that occurs in the text, or the number of members. */
  method FindMember(members: seq<string>, text: string) returns (j: nat)
    ensures j <= |members|
    ensures forall k :: 0 <= k < j ==> !Contains(text, members[k])
    ensures j < |members| ==> Contains(text, members[j])
  {
    j := 0;
    while j < |members|
      invariant 0 <= j <= |members|
      invariant forall k :: 0 <= k < j ==> !Contains(text, members[k])
    {
      if Contains(text, members[j]) {
        return j;
      }
      j := j + 1;
    }
  }

  /**
   * Lines 178-190: returns the first member or port name that already occurs
   * in the configlet text, checking a port-channel's members before the port.
   */
  method FindConflict(ports: PortMap, text: string) returns (hit: Option<string>)
    ensures hit == FirstContained(CheckedNames(ports), text)
  {
    var i := 0;
    while i < |ports|
      invariant 0 <= i <= |ports|
      invariant forall n :: n in CheckedNames(ports[..i]) ==> !Contains(text, n)
    {
      var port, cfg := ports[i].0, ports[i].1;
      CheckedNamesStep(ports, i);
      ghost var done, mid, whole := CheckedNames(ports[..i]), PortCheckNames(port, cfg), CheckedNames(ports);
      var j := 0;
      if IsPortChannel(port) {
        j := FindMember(cfg.localMembers, text);
        if j < |cfg.localMembers| {
          assert mid[j] == cfg.localMembers[j];
          FirstContainedIn(done, mid, whole, j, text);
          return Some(cfg.localMembers[j]);
        }
      }
      assert mid[j] == port && j == |mid| - 1;
      if Contains(text, port) {
        FirstContainedIn(done, mid, whole, j, text);
        return Some(port);
      }
      forall n | n in done + mid ensures !Contains(text, n) {
        if n !in done {
          var k :| 0 <= k < |mid| && mid[k] == n;
        }
      }
      i := i + 1;
    }
    assert ports[..i] == ports;
    FirstContainedSkip(CheckedNames(ports), [], text);
    assert CheckedNames(ports) + [] == CheckedNames(ports);
    return None;
  }

  // ---------------------------------------------------------------------
  // Partition of the existing configlet (lines 193-200)
  // ---------------------------------------------------------------------

  predicate IsEthBlock(b: string) {
    StartsWith(b, "interface Eth")
  }

  predicate IsChannelBlock(b: string) {
    StartsWith(b, "interface Port")
  }

  /** The blocks starting "interface Eth", in order. */
  function EthBlocks(blocks: seq<string>): seq<string> {
    if |blocks| == 0 then []
    else EthBlocks(blocks[..|blocks| - 1]) + (if IsEthBlock(blocks[|blocks| - 1]) then [blocks[|blocks| - 1]] else [])
  }

  /** The blocks starting "interface Port" (and not "interface Eth"), in order. */
  function ChannelBlocks(blocks: seq<string>): seq<string> {
    if |blocks| == 0 then []
    else
      var b := blocks[|blocks| - 1];
      ChannelBlocks(blocks[..|blocks| - 1]) + (if !IsEthBlock(b) && IsChannelBlock(b) then [b] else [])
  }

  /** Lines 193-200: one pass over the blocks, keeping Ethernet and port-channel blocks apart. */
  method PartitionBlocks(blocks: seq<string>) returns (eth: seq<string>, pc: seq<string>)
    ensures eth == EthBlocks(blocks) && pc == ChannelBlocks(blocks)
  {
    eth, pc := [], [];
    var i := 0;
    while i < |blocks|
      invariant 0 <= i <= |blocks|
      invariant eth == EthBlocks(blocks[..i]) && pc == ChannelBlocks(blocks[..i])
    {
      assert blocks[..i + 1][..i] == blocks[..i];
      if IsEthBlock(blocks[i]) {
        eth := eth + [blocks[i]];
      } else if IsChannelBlock(blocks[i]) {
        pc := pc + [blocks[i]];
      }
      i := i + 1;
    }
    assert blocks[..i] == blocks;
  }

  /** No block starts both "interface Eth" and "interface Port". */
  lemma EthNotChannel(c: string)
    requires IsEthBlock(c)
    ensures !IsChannelBlock(c)
  {
    assert c[..|"interface Eth"|][10] == 'E';
  }

  lemma {:induction false} EthBlocksMeaning(blocks: seq<string>)
    ensures forall b :: b in EthBlocks(blocks) <==> b in blocks && IsEthBlock(b)
  {
    if |blocks| > 0 {
      var init, b := blocks[..|blocks| - 1], blocks[|blocks| - 1];
      EthBlocksMeaning(init);
      assert blocks == init + [b];
    }
  }

  lemma {:induction false} ChannelBlocksMeaning(blocks: seq<string>)
    ensures forall b :: b in ChannelBlocks(blocks) <==> b in blocks && IsChannelBlock(b)
  {
    if |blocks| > 0 {
      var init, b := blocks[..|blocks| - 1], blocks[|blocks| - 1];
      ChannelBlocksMeaning(init);
      assert blocks == init + [b];
      if IsEthBlock(b) {
        EthNotChannel(b);
      }
    }
  }

  lemma {:induction false} PartitionCount(blocks: seq<string>)
    ensures multiset(EthBlocks(blocks)) + multiset(ChannelBlocks(blocks)) <= multiset(blocks)
  {
    if |blocks| > 0 {
      var init, b := blocks[..|blocks| - 1], blocks[|blocks| - 1];
      PartitionCount(init);
      assert blocks == init + [b];
      var e, c := EthBlocks(init), ChannelBlocks(init);
      assert multiset(blocks) == multiset(init) + multiset{b};
      if IsEthBlock(b) {
        assert EthBlocks(blocks) == e + [b] && ChannelBlocks(blocks) == c;
        assert multiset(e + [b]) == multiset(e) + multiset{b};
      } else if IsChannelBlock(b) {
        assert EthBlocks(blocks) == e && ChannelBlocks(blocks) == c + [b];
        assert multiset(c + [b]) == multiset(c) + multiset{b};
      } else {
        assert EthBlocks(blocks) == e && ChannelBlocks(blocks) == c;
      }
    }
  }

  /**
   * A block is kept in the Ethernet group exactly when it starts "interface Eth",
   * in the port-channel group exactly when it starts "interface Port"; every other
   * block is dropped, and the two groups together are a sub-multiset of the blocks.
   */
  lemma PartitionMeaning(blocks: seq<string>)
    ensures forall b :: b in EthBlocks(blocks) <==> b in blocks && IsEthBlock(b)
    ensures forall b :: b in ChannelBlocks(blocks) <==> b in blocks && IsChannelBlock(b)
    ensures multiset(EthBlocks(blocks)) + multiset(ChannelBlocks(blocks)) <= multiset(blocks)
  {
    EthBlocksMeaning(blocks);
    ChannelBlocksMeaning(blocks);
    PartitionCount(blocks);
  }

  // ---------------------------------------------------------------------
  // Sorting and rendering (lines 201-222, 231-238)
  // ---------------------------------------------------------------------

  /** Each group sorted by its numeric key, the port-channel group (if any) first, a blank line between. */
  function Render(eth: seq<string>, pc: seq<string>): string {
    if |pc| > 0 then Join(Sort(pc, SortKey), Separator) + Separator + Join(Sort(eth, SortKey), Separator)
    else Join(Sort(eth, SortKey), Separator)
  }

  /** The existing configlet text merged with new stanzas. */
  function Merge(existing: string, eth: seq<string>, pc: seq<string>): string {
    var blocks := Split(existing, Separator);
    Render(EthBlocks(blocks) + eth, ChannelBlocks(blocks) + pc)
  }

  /**
   * The rendered text is the sorted port-channel group followed by the sorted
   * Ethernet group, joined by blank lines; when the Ethernet group is empty
   * the port-channel group is followed by a trailing blank line.
   */
  lemma RenderLayout(eth: seq<string>, pc: seq<string>)
    ensures |pc| == 0 ==> Render(eth, pc) == Join(Sort(eth, SortKey), Separator)
    ensures |pc| > 0 && |eth| > 0 ==>
      Render(eth, pc) == Join(Sort(pc, SortKey) + Sort(eth, SortKey), Separator)
    ensures |pc| > 0 && |eth| == 0 ==> Render(eth, pc) == Join(Sort(pc, SortKey), Separator) + Separator
  {
    if |pc| > 0 && |eth| > 0 {
      JoinAppend(Sort(pc, SortKey), Sort(eth, SortKey), Separator);
    }
  }

  /**
   * Each group of a merge is sorted by key, is a permutation of the kept
   * existing blocks plus the new stanzas, and keeps equal-keyed blocks in
   * their original order (existing blocks before new stanzas).
   */
  lemma MergeGroups(existing: string, eth: seq<string>, pc: seq<string>)
    ensures var blocks := Split(existing, Separator);
      var ethGroup := Sort(EthBlocks(blocks) + eth, SortKey);
      Sorted(ethGroup, SortKey) &&
      multiset(ethGroup) == multiset(EthBlocks(blocks)) + multiset(eth) &&
      forall k :: WithKey(ethGroup, SortKey, k) == WithKey(EthBlocks(blocks) + eth, SortKey, k)
    ensures var blocks := Split(existing, Separator);
      var pcGroup := Sort(ChannelBlocks(blocks) + pc, SortKey);
      Sorted(pcGroup, SortKey) &&
      multiset(pcGroup) == multiset(ChannelBlocks(blocks)) + multiset(pc) &&
      forall k :: WithKey(pcGroup, SortKey, k) == WithKey(ChannelBlocks(blocks) + pc, SortKey, k)
  {
    var blocks := Split(existing, Separator);
    SortSpec(EthBlocks(blocks) + eth, SortKey);
    SortSpec(ChannelBlocks(blocks) + pc, SortKey);
  }

  // ---------------------------------------------------------------------
  // The whole update (lines 127-244)
  // ---------------------------------------------------------------------

  /** A configlet as CVP returns it: its text and its key. */
  datatype StoredConfiglet = StoredConfiglet(config: string, key: string)

  /**
   * What `switch_configlet_update` does: nothing for an empty port map, abort on
   * an unknown mode, refuse (return 1) on a conflict, crash in the sort on a
   * block without a key, update the existing configlet with its own key, or
   * create (and apply with a task) a new one.
   */
  datatype Outcome =
    | NoPorts
    | BadMode(port: string)
    | Conflict(name: string)
    | Unsortable(block: string)
    | Update(name: string, text: string, key: string)
    | Create(name: string, text: string)

  /** The CVP configlet of a switch is "<switch> Switchports". */
  function ConfigletName(switch: string): string {
    switch + " Switchports"
  }

  /** Every stanza the port map renders has a sort key. */
  predicate NamesSortable(ports: PortMap) {
    forall i :: 0 <= i < |ports| ==>
      ValidIdentity(ports[i].0) &&
      (IsPortChannel(ports[i].0) ==> forall m :: m in ports[i].1.localMembers ==> ValidIdentity(m))
  }

  /** Every block of the text that the merge keeps has a sort key. */
  predicate BlocksSortable(text: string) {
    forall b :: b in Split(text, Separator) && (IsEthBlock(b) || IsChannelBlock(b)) ==> HasKey(b)
  }

  /**
   * The blocks whose keys the script computes, in the order it computes them:
   * the Ethernet group, then the port-channel group (sorted only when
   * non-empty), each the kept existing blocks followed by the new stanzas.
   */
  function SortedBlocks(lookup: Option<StoredConfiglet>, eth: seq<string>, pc: seq<string>): seq<string> {
    if lookup.Some? && lookup.value.config != "" then
      var blocks := Split(lookup.value.config, Separator);
      (EthBlocks(blocks) + eth) + (ChannelBlocks(blocks) + pc)
    else eth + pc
  }

  /** Every block has a sort key. */
  predicate AllKeyed(blocks: seq<string>) {
    forall k :: 0 <= k < |blocks| ==> HasKey(blocks[k])
  }

  /** `b` is the first block without a sort key. */
  predicate IsFirstUnkeyed(blocks: seq<string>, b: string) {
    exists i :: 0 <= i < |blocks| && blocks[i] == b && !HasKey(b) && AllKeyed(blocks[..i])
  }

  /** The first block whose key raises, where `sorted` stops with the exception. */
  function FirstUnkeyed(blocks: seq<string>): (r: Option<string>)
    ensures r.None? <==> AllKeyed(blocks)
    ensures r.Some? ==> IsFirstUnkeyed(blocks, r.value)
  {
    if |blocks| == 0 then None
    else if !HasKey(blocks[0]) then
      assert AllKeyed(blocks[..0]);
      Some(blocks[0])
    else
      var r := FirstUnkeyed(blocks[1..]);
      assert forall k :: 1 <= k < |blocks| ==> blocks[k] == blocks[1..][k - 1];
      assert r.Some? ==> IsFirstUnkeyed(blocks, r.value) by {
        if r.Some? {
          var i :| 0 <= i < |blocks[1..]| && blocks[1..][i] == r.value && !HasKey(r.value) && AllKeyed(blocks[1..][..i]);
          var pre, tailPre := blocks[..i + 1], blocks[1..][..i];
          forall k | 0 <= k < |pre| ensures HasKey(pre[k]) {
            if k > 0 {
              assert pre[k] == tailPre[k - 1];
            }
          }
        }
      }
      r
  }

  /** The sort succeeds on `blocks` and gives `done`, or raises on the first block without a key. */
  function AfterSort(blocks: seq<string>, done: Outcome): Outcome {
    match FirstUnkeyed(blocks)
    case Some(b) => Unsortable(b)
    case None => done
  }

  /** The sort gives the planned outcome exactly when every block has a key, and raises on the first one without. */
  lemma AfterSortMeaning(blocks: seq<string>, done: Outcome)
    requires !done.Unsortable?
    ensures AfterSort(blocks, done) == done <==> AllKeyed(blocks)
    ensures AfterSort(blocks, done) != done ==>
      AfterSort(blocks, done).Unsortable? && IsFirstUnkeyed(blocks, AfterSort(blocks, done).block)
  {
  }

  /**
   * What happens once the stanzas are rendered, given the CVP lookup of the
   * switch's configlet (None when CVP raises CvpApiError).
   */
  function PlanRendered(switch: string, ports: PortMap, eth: seq<string>, pc: seq<string>,
                        lookup: Option<StoredConfiglet>): Outcome
  {
    match lookup
    case None => AfterSort(eth + pc, Create(ConfigletName(switch), Render(eth, pc)))
    case Some(c) =>
      if c.config == "" then AfterSort(eth + pc, Update(ConfigletName(switch), Render(eth, pc), c.key))
      else
        match FirstContained(CheckedNames(ports), c.config)
        case Some(n) => Conflict(n)
        case None =>
          var blocks := Split(c.config, Separator);
          AfterSort(EthBlocks(blocks) + eth + (ChannelBlocks(blocks) + pc),
                    Update(ConfigletName(switch), Merge(c.config, eth, pc), c.key))
  }

  /** The existing text has a name of the port map in it (checked only when the text is non-empty). */
  predicate HasConflict(ports: PortMap, lookup: Option<StoredConfiglet>) {
    lookup.Some? && lookup.value.config != "" && FirstContained(CheckedNames(ports), lookup.value.config).Some?
  }

  /** What the script writes when the sort succeeds: a new configlet, or the stored one under its key. */
  function Written(switch: string, eth: seq<string>, pc: seq<string>, lookup: Option<StoredConfiglet>): Outcome {
    match lookup
    case None => Create(ConfigletName(switch), Render(eth, pc))
    case Some(c) =>
      Update(ConfigletName(switch), if c.config == "" then Render(eth, pc) else Merge(c.config, eth, pc), c.key)
  }

  /** Once the stanzas are rendered: a conflict first, otherwise the sort of the blocks to be written. */
  lemma RenderedSteps(switch: string, ports: PortMap, eth: seq<string>, pc: seq<string>,
                      lookup: Option<StoredConfiglet>)
    ensures HasConflict(ports, lookup) ==>
      PlanRendered(switch, ports, eth, pc, lookup) == Conflict(FirstContained(CheckedNames(ports), lookup.value.config).value)
    ensures !HasConflict(ports, lookup) ==>
      PlanRendered(switch, ports, eth, pc, lookup) == AfterSort(SortedBlocks(lookup, eth, pc), Written(switch, eth, pc, lookup))
  {
  }

  /** The outcome once the stanzas are rendered, case by case. */
  lemma RenderedCases(switch: string, ports: PortMap, eth: seq<string>, pc: seq<string>,
                      lookup: Option<StoredConfiglet>)
    ensures var out, all := PlanRendered(switch, ports, eth, pc, lookup), SortedBlocks(lookup, eth, pc);
      (out.Conflict? <==> HasConflict(ports, lookup)) &&
      (out.Unsortable? <==> !HasConflict(ports, lookup) && !AllKeyed(all)) &&
      (out.Unsortable? ==> IsFirstUnkeyed(all, out.block)) &&
      (out.Create? <==> lookup.None? && AllKeyed(all)) &&
      (out.Update? <==> lookup.Some? && !HasConflict(ports, lookup) && AllKeyed(all)) &&
      (out.Create? || out.Update? ==> out == Written(switch, eth, pc, lookup))
  {
    RenderedSteps(switch, ports, eth, pc, lookup);
    if !HasConflict(ports, lookup) {
      AfterSortMeaning(SortedBlocks(lookup, eth, pc), Written(switch, eth, pc, lookup));
    }
  }

  /** The outcome of `switch_configlet_update(switch, ports)`. */
  function Plan(switch: string, ports: PortMap, vlan: string, lookup: Option<StoredConfiglet>): Outcome
    requires WellFormedPorts(ports)
  {
    if |ports| == 0 then NoPorts
    else
      match NewStanzas(ports, vlan)
      case InvalidMode(p) => BadMode(p)
      case Stanzas(eth, pc) => PlanRendered(switch, ports, eth, pc, lookup)
  }

  /** `switch_configlet_update`: renders, checks, partitions and renders the configlet. */
  method SwitchConfigletUpdate(switch: string, ports: PortMap, vlan: string, lookup: Option<StoredConfiglet>)
    returns (outcome: Outcome)
    requires WellFormedPorts(ports)
    ensures outcome == Plan(switch, ports, vlan, lookup)
  {
    if |ports| == 0 {
      return NoPorts;
    }
    var rendering := RenderStanzas(ports, vlan);
    if rendering.InvalidMode? {
      return BadMode(rendering.port);
    }
    var eth, pc := rendering.eth, rendering.pc;
    var name := ConfigletName(switch);
    if lookup.None? {
      var bad := FirstUnkeyed(eth + pc);
      if bad.Some? {
        return Unsortable(bad.value);
      }
      return Create(name, Render(eth, pc));
    }
    var existing := lookup.value;
    if existing.config == "" {
      var bad := FirstUnkeyed(eth + pc);
      if bad.Some? {
        return Unsortable(bad.value);
      }
      return Update(name, Render(eth, pc), existing.key);
    }
    var hit := FindConflict(ports, existing.config);
    if hit.Some? {
      return Conflict(hit.value);
    }
    var blocks := Split(existing.config, Separator);
    var oldEth, oldPc := PartitionBlocks(blocks);
    var bad := FirstUnkeyed(oldEth + eth + (oldPc + pc));
    if bad.Some? {
      return Unsortable(bad.value);
    }
    return Update(name, Render(oldEth + eth, oldPc + pc), existing.key);
  }

  // ---------------------------------------------------------------------
  // Properties of the plan
  // ---------------------------------------------------------------------

  /** An unknown mode aborts exactly when the map is non-empty and some mode is unknown. */
  lemma PlanBadMode(switch: string, ports: PortMap, vlan: string, lookup: Option<StoredConfiglet>)
    requires WellFormedPorts(ports)
    ensures Plan(switch, ports, vlan, lookup).BadMode? <==> |ports| > 0 && !ModesValid(ports)
  {
    NewStanzasInvalidIff(ports, vlan);
  }

  /** The sort of the final blocks succeeds: every block whose key the script computes has one. */
  predicate SortsCleanly(ports: PortMap, vlan: string, lookup: Option<StoredConfiglet>)
    requires WellFormedPorts(ports)
  {
    match NewStanzas(ports, vlan)
    case InvalidMode(_) => true
    case Stanzas(eth, pc) => AllKeyed(SortedBlocks(lookup, eth, pc))
  }

  /** The plan of a non-empty map with valid modes is the plan of its rendered stanzas. */
  lemma PlanRenders(switch: string, ports: PortMap, vlan: string, lookup: Option<StoredConfiglet>)
    requires WellFormedPorts(ports) && |ports| > 0 && ModesValid(ports)
    ensures NewStanzas(ports, vlan).Stanzas?
    ensures Plan(switch, ports, vlan, lookup) ==
      PlanRendered(switch, ports, NewStanzas(ports, vlan).eth, NewStanzas(ports, vlan).pc, lookup)
  {
    NewStanzasInvalidIff(ports, vlan);
  }

  /** No conflict, stated on the names: an empty text, or none of the names occurs in it. */
  lemma NoConflictMeaning(ports: PortMap, lookup: Option<StoredConfiglet>)
    ensures !HasConflict(ports, lookup) <==>
      (lookup.Some? && lookup.value.config != "" ==> forall n :: n in CheckedNames(ports) ==> !Contains(lookup.value.config, n))
  {
    if lookup.Some? {
      FirstContainedMeaning(CheckedNames(ports), lookup.value.config);
    }
  }

  /**
   * A conflict is reported exactly when the existing configlet text is
   * non-empty and some port or member name occurs in it as a substring; the
   * name reported is the first such name in checking order.
   */
  lemma PlanConflict(switch: string, ports: PortMap, vlan: string, lookup: Option<StoredConfiglet>)
    requires WellFormedPorts(ports)
    ensures Plan(switch, ports, vlan, lookup).Conflict? <==>
      |ports| > 0 && ModesValid(ports) && lookup.Some? && lookup.value.config != "" &&
      exists n :: n in CheckedNames(ports) && Contains(lookup.value.config, n)
    ensures Plan(switch, ports, vlan, lookup).Conflict? ==>
      Plan(switch, ports, vlan, lookup).name in CheckedNames(ports) &&
      Contains(lookup.value.config, Plan(switch, ports, vlan, lookup).name)
  {
    NewStanzasInvalidIff(ports, vlan);
    NoConflictMeaning(ports, lookup);
    if |ports| > 0 && ModesValid(ports) {
      PlanRenders(switch, ports, vlan, lookup);
      var r := NewStanzas(ports, vlan);
      RenderedCases(switch, ports, r.eth, r.pc, lookup);
      if HasConflict(ports, lookup) {
        RenderedSteps(switch, ports, r.eth, r.pc, lookup);
        FirstContainedMeaning(CheckedNames(ports), lookup.value.config);
      }
    }
  }

  /**
   * The script crashes in the sort exactly when it gets past the conflict
   * check and some block whose key it computes has none; the block reported
   * is the first one without a key, in the order the keys are computed.
   */
  lemma PlanUnsortable(switch: string, ports: PortMap, vlan: string, lookup: Option<StoredConfiglet>)
    requires WellFormedPorts(ports)
    ensures Plan(switch, ports, vlan, lookup).Unsortable? <==>
      |ports| > 0 && ModesValid(ports) && !HasConflict(ports, lookup) && !SortsCleanly(ports, vlan, lookup)
    ensures Plan(switch, ports, vlan, lookup).Unsortable? ==>
      match NewStanzas(ports, vlan)
      case InvalidMode(_) => false
      case Stanzas(eth, pc) => IsFirstUnkeyed(SortedBlocks(lookup, eth, pc), Plan(switch, ports, vlan, lookup).block)
  {
    NewStanzasInvalidIff(ports, vlan);
    if |ports| > 0 && ModesValid(ports) {
      PlanRenders(switch, ports, vlan, lookup);
      var r := NewStanzas(ports, vlan);
      RenderedCases(switch, ports, r.eth, r.pc, lookup);
    }
  }

  /** A new configlet is created exactly when CVP has none and the sort succeeds; it holds the sorted render of the new stanzas only. */
  lemma PlanCreate(switch: string, ports: PortMap, vlan: string, lookup: Option<StoredConfiglet>)
    requires WellFormedPorts(ports)
    ensures Plan(switch, ports, vlan, lookup).Create? <==>
      |ports| > 0 && ModesValid(ports) && lookup.None? && SortsCleanly(ports, vlan, lookup)
    ensures Plan(switch, ports, vlan, lookup).Create? ==>
      Plan(switch, ports, vlan, lookup) ==
        Create(ConfigletName(switch), Render(NewStanzas(ports, vlan).eth, NewStanzas(ports, vlan).pc))
  {
    NewStanzasInvalidIff(ports, vlan);
    if |ports| > 0 && ModesValid(ports) {
      PlanRenders(switch, ports, vlan, lookup);
      var r := NewStanzas(ports, vlan);
      RenderedCases(switch, ports, r.eth, r.pc, lookup);
    }
  }

  /**
   * An update always writes back to the existing configlet under its own key,
   * once the sort succeeds; it merges with the existing text when that text is
   * non-empty and replaces it otherwise.
   */
  lemma PlanUpdate(switch: string, ports: PortMap, vlan: string, lookup: Option<StoredConfiglet>)
    requires WellFormedPorts(ports)
    ensures Plan(switch, ports, vlan, lookup).Update? <==>
      |ports| > 0 && ModesValid(ports) && lookup.Some? && !HasConflict(ports, lookup) && SortsCleanly(ports, vlan, lookup)
    ensures Plan(switch, ports, vlan, lookup).Update? ==>
      var out := Plan(switch, ports, vlan, lookup);
      var r := NewStanzas(ports, vlan);
      out.name == ConfigletName(switch) && out.key == lookup.value.key &&
      out.text == (if lookup.value.config == "" then Render(r.eth, r.pc) else Merge(lookup.value.config, r.eth, r.pc))
  {
    NewStanzasInvalidIff(ports, vlan);
    if |ports| > 0 && ModesValid(ports) {
      PlanRenders(switch, ports, vlan, lookup);
      var r := NewStanzas(ports, vlan);
      RenderedCases(switch, ports, r.eth, r.pc, lookup);
    }
  }

  /** New stanzas with keys and a stored text whose kept blocks have keys give only keyed blocks to sort. */
  lemma SortedBlocksKeyed(lookup: Option<StoredConfiglet>, eth: seq<string>, pc: seq<string>)
    requires (forall b :: b in eth ==> HasKey(b)) && (forall b :: b in pc ==> HasKey(b))
    requires lookup.Some? && lookup.value.config != "" ==> BlocksSortable(lookup.value.config)
    ensures AllKeyed(SortedBlocks(lookup, eth, pc))
  {
    if lookup.Some? && lookup.value.config != "" {
      var blocks := Split(lookup.value.config, Separator);
      EthBlocksMeaning(blocks);
      ChannelBlocksMeaning(blocks);
    }
    var all := SortedBlocks(lookup, eth, pc);
    forall k | 0 <= k < |all| ensures HasKey(all[k]) {
      assert all[k] in all;
    }
  }

  /**
   * Interface names that end in well-formed numerals, and an existing text
   * whose kept blocks all have keys, never make the sort crash.
   */
  lemma PlanSortable(switch: string, ports: PortMap, vlan: string, lookup: Option<StoredConfiglet>)
    requires WellFormedPorts(ports) && NamesSortable(ports)
    requires lookup.Some? && lookup.value.config != "" ==> BlocksSortable(lookup.value.config)
    ensures SortsCleanly(ports, vlan, lookup)
    ensures !Plan(switch, ports, vlan, lookup).Unsortable?
  {
    PlanUnsortable(switch, ports, vlan, lookup);
    var r := NewStanzas(ports, vlan);
    if r.Stanzas? {
      NewStanzasHaveKeys(ports, vlan);
      SortedBlocksKeyed(lookup, r.eth, r.pc);
    }
  }

  // ---------------------------------------------------------------------
  // The driver (lines 425-430)
  // ---------------------------------------------------------------------

  /** An outcome that ends the run: `sys.exit` on a mode, a return value of 1, or the sort's exception. */
  predicate Stops(outcome: Outcome) {
    outcome.BadMode? || outcome.Conflict? || outcome.Unsortable?
  }

  lemma PlanNoPorts(switch: string, ports: PortMap, vlan: string, lookup: Option<StoredConfiglet>)
    requires |ports| == 0
    ensures Plan(switch, ports, vlan, lookup) == NoPorts
  {
  }

  /** Appending the next switch's plan keeps the outcomes equal to the plans so far. */
  lemma PlannedSnoc(switches: seq<string>, maps: seq<PortMap>, lookups: seq<Option<StoredConfiglet>>, vlan: string,
                    outcomes: seq<Outcome>, outcome: Outcome)
    requires |maps| == |switches| && |lookups| == |switches| && |outcomes| < |switches|
    requires forall i :: 0 <= i < |switches| ==> WellFormedPorts(maps[i])
    requires forall k :: 0 <= k < |outcomes| ==> outcomes[k] == Plan(switches[k], maps[k], vlan, lookups[k])
    requires outcome == Plan(switches[|outcomes|], maps[|outcomes|], vlan, lookups[|outcomes|])
    ensures forall k :: 0 <= k < |outcomes| + 1 ==> (outcomes + [outcome])[k] == Plan(switches[k], maps[k], vlan, lookups[k])
  {
  }

  /**
   * Lines 425-430: updates each switch's configlet in turn (switches with an
   * empty port map are skipped) and exits the whole run at the first switch
   * that aborts or reports a conflict.
   */
  method UpdateConfiglets(switches: seq<string>, maps: seq<PortMap>, lookups: seq<Option<StoredConfiglet>>, vlan: string)
    returns (outcomes: seq<Outcome>)
    requires |maps| == |switches| && |lookups| == |switches|
    requires forall i :: 0 <= i < |switches| ==> WellFormedPorts(maps[i])
    ensures |outcomes| <= |switches|
    ensures forall i :: 0 <= i < |outcomes| ==> outcomes[i] == Plan(switches[i], maps[i], vlan, lookups[i])
    ensures forall i :: 0 <= i < |outcomes| - 1 ==> !Stops(outcomes[i])
    ensures |outcomes| < |switches| ==> |outcomes| > 0 && Stops(outcomes[|outcomes| - 1])
  {
    outcomes := [];
    var i := 0;
    while i < |switches|
      invariant 0 <= i <= |switches| && |outcomes| == i
      invariant forall k :: 0 <= k < i ==> outcomes[k] == Plan(switches[k], maps[k], vlan, lookups[k])
      invariant forall k :: 0 <= k < i ==> !Stops(outcomes[k])
    {
      var outcome := NoPorts;
      if |maps[i]| > 0 {
        outcome := SwitchConfigletUpdate(switches[i], maps[i], vlan, lookups[i]);
      } else {
        PlanNoPorts(switches[i], maps[i], vlan, lookups[i]);
      }
      PlannedSnoc(switches, maps, lookups, vlan, outcomes, outcome);
      outcomes := outcomes + [outcome];
      if Stops(outcome) {
        return;
      }
      i := i + 1;
    }
  }
}
