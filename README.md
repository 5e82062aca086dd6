# arista-nsx switchport provisioning, modelled in Dafny

This project models the three provisioning scripts of the arista-nsx
repository. Each reads a JSON description of a tenant's switch ports, configures those
ports on Arista switches, and binds them to an NSX logical switch through
the CVX hardware gateway.

- `cvp_add_hardware_binding.py` renders one interface stanza per port and per
  port-channel member. It refuses a switch whose `<switch> Switchports`
  configlet already mentions one of the interfaces. Otherwise it merges the
  new stanzas into the existing configlet text: port-channels come first, and
  each group is sorted by the numeric key of its interface name. It then
  either updates the configlet under its own key or creates a new one.
  Afterwards it executes the user's pending configlet-assignment tasks.
- `eapi_add_hardware_binding.py` pushes the same directives straight to each
  switch over eAPI. Before touching an interface it checks that the
  interface's running configuration is empty, and it saves (`write`) only
  when every port went through.
- `create_logical_switch.py` creates the tenant's logical switch, after
  refusing a duplicate name.

All three scripts then bind every port to the logical switch. An MLAG
port-channel is bound under its MLAG domain's names. The VLAN is derived
from the logical switch's VNI.

Modules:

| module | file | contents |
|---|---|---|
| `Wrappers`, `Text` | text.dfy | `Option`; Python's `startswith`, `in`, `find`, `split`, `join` and `int()` on strings |
| `Ports` | ports.dfy | the port map, port-channel ids, mode lines, VLAN and name derivations |
| `InterfaceKey` | interfacekey.dfy | the regular-expression sort key of a stanza and Python's list order |
| `StableSort` | stablesort.dfy | Python's `sorted`: stable, keyed |
| `Configlet` | configlet.dfy | the CVP configlet builder, merger and its driver |
| `CvpTasks` | cvptasks.dfy | the pending-task filter |
| `Eapi` | eapi.dfy | the switch as a class with a request log, the eAPI pusher and its driver |
| `Binding` | binding.dfy | `nsx_binding_check` and `nsx_hardware_binding`, shared by all three scripts |
| `LogicalSwitch` | logicalswitch.dfy | the tenant-switch lookup, the duplicate check and the create flow |

Where code is imperative it stays imperative. Each loop is a `method` with
invariants, proved equal to a specification function, and the properties
are proved as lemmas about that function. The eAPI switch is a class: its
`log` field records every request sent, in order, and its replies to
`show running-config interfaces` are the constant `runningConfig`. CVP and
NSX replies (the stored configlet, pending tasks, binding lists, HTTP
statuses, the logical-switch list) are parameters.

Two behaviours of the scripts that are easy to miss are modelled as the code has them:
- A conflict is any substring occurrence of a port or member name in the configlet text, not an exact interface match.
- When the existing configlet has port-channel blocks but the new stanzas have none, those blocks are still sorted and placed first.

## Model

| member | source | states |
|---|---|---|
| Text.Find | cvp_add_hardware_binding.py:193 | an index found leaves room for the whole separator after it |
| Text.FindOccurs | cvp_add_hardware_binding.py:193 | an index found is where an occurrence of the separator starts |
| Text.FindLeftmost | cvp_add_hardware_binding.py:193 | `str.find` answers an occurrence with no occurrence before it, and answers nothing iff the separator occurs nowhere |
| Text.ContainsOccurs | cvp_add_hardware_binding.py:180-185 | `sub in s` holds iff `sub` occurs in `s` at some index |
| Text.FindPastClear | cvp_add_hardware_binding.py:193 | when none of the first n characters can start the separator, the scan finds what it finds after them, shifted by n, and nothing when nothing is found there |
| Text.FindAfterPrefix | cvp_add_hardware_binding.py:193 | in `p + q`, with the separator's first character absent from `p`, the separator is found exactly where it is found in `q`, shifted by the length of `p` |
| Text.FindAbsent | cvp_add_hardware_binding.py:141 | a separator whose first character does not occur is not found |
| Text.Split | cvp_add_hardware_binding.py:193 | `str.split` always yields at least one piece |
| Text.SplitJoin | cvp_add_hardware_binding.py:193 | joining the pieces of `s.split(sep)` with `sep` gives `s` back |
| Text.SplitPiecesClear | cvp_add_hardware_binding.py:193 | no piece of `s.split(sep)` contains `sep` |
| Text.SplitAtPrefix | cvp_add_hardware_binding.py:193 | splitting `p + sep + q`, with the separator's first character absent from `p`, yields `p` and then the pieces of `q` |
| Text.SplitAbsent | cvp_add_hardware_binding.py:141 | a string in which the separator's first character does not occur splits to itself alone |
| Text.JoinAppend | cvp_add_hardware_binding.py:206-211 | joining a concatenation is joining each part with one separator between them |
| Text.ParseNatBound | cvp_add_hardware_binding.py:205 | `int()` of n digits is below 10^n |
| Text.ParseNatAppend | cvp_add_hardware_binding.py:205 | `int()` of a concatenation of digit strings is the first value times 10 to the length of the second, plus the second value |
| Ports.ChannelId | cvp_add_hardware_binding.py:141 | definition: `port.split('l')[1]`, the piece after the first `l` (see ChannelIdOfPortChannel) |
| Ports.VlanFromVni | cvp_add_hardware_binding.py:418 | definition: `vni[0] + vni[-2:]`, the first character followed by the last two (see VlanFromVniValue) |
| Ports.LogicalSwitchName | cvp_add_hardware_binding.py:390 | definition: `'vls' + data_center + tenant_name + zone_name` |
| Ports.ChannelIdOfPortChannel | cvp_add_hardware_binding.py:140-141 | `"Port-Channel<n>".split('l')[1]` is n for any n without an `l` |
| Ports.VlanFromVniValue | cvp_add_hardware_binding.py:418 | the derived VLAN has three digits: the leading VNI digit times 100 plus the VNI modulo 100 |
| InterfaceKey.KeyLessIrreflexive | cvp_add_hardware_binding.py:205 | no key sorts before itself |
| InterfaceKey.KeyLessTransitive | cvp_add_hardware_binding.py:205 | Python's list order is transitive |
| InterfaceKey.KeyLessTotal | cvp_add_hardware_binding.py:205 | any two distinct keys are ordered one way or the other |
| InterfaceKey.KeyLessAsymmetric | cvp_add_hardware_binding.py:205 | two keys are never each before the other |
| InterfaceKey.NotLessTransitive | cvp_add_hardware_binding.py:205 | "not after" is transitive, which the stable sort relies on |
| InterfaceKey.TrailingRun | cvp_add_hardware_binding.py:205 | the run is a suffix made only of digits and slashes, and the character before it, if any, is neither |
| InterfaceKey.ParseEach | cvp_add_hardware_binding.py:205 | `map(int, pieces)`: one number per piece, each the value of its piece |
| InterfaceKey.DigitsAreKeyChars | cvp_add_hardware_binding.py:205 | digits lie in the class `[0-9/]` |
| InterfaceKey.TrailingRunAfter | cvp_add_hardware_binding.py:205 | a non-key character ends the run of digits and slashes that the key reads |
| InterfaceKey.TrailingRunWhole | cvp_add_hardware_binding.py:205 | a string of digits and slashes is its own key run |
| InterfaceKey.NameKeyOne | cvp_add_hardware_binding.py:205 | a name ending in one number n has the key [n] |
| InterfaceKey.SplitTwo | cvp_add_hardware_binding.py:205 | `"a/b".split('/')` is [a, b] when neither part has a slash |
| InterfaceKey.RunTwoKeyChars | cvp_add_hardware_binding.py:205 | a/b with digit parts lies wholly in the class `[0-9/]` |
| InterfaceKey.TrailingRunTwo | cvp_add_hardware_binding.py:205 | the run at the end of a name ending in a/b is a/b |
| InterfaceKey.NameKeyTwo | cvp_add_hardware_binding.py:205 | a name ending in a/b has the key [a, b] |
| InterfaceKey.KeyOrderMinor | cvp_add_hardware_binding.py:205 | a/b sorts before a/c when b < c as numbers, so Ethernet1/2 comes before Ethernet1/10 |
| InterfaceKey.KeyOrderMajor | cvp_add_hardware_binding.py:205 | a/b sorts before c/d when a < c as numbers, whatever b and d are |
| InterfaceKey.KeyOrderPrefix | cvp_add_hardware_binding.py:205 | a key that is a proper prefix sorts first: Ethernet3 before Ethernet3/1 |
| InterfaceKey.LeadingRun | cvp_add_hardware_binding.py:205 | the run is a prefix made only of digits and slashes, and the character after it, if any, is neither |
| InterfaceKey.FirstMatchLeftmost | cvp_add_hardware_binding.py:205 | `re.findall(...)[0]` is a match of `[0-9/]+(?=\n\s\s\s)` with no match starting before it; there is none iff the pattern matches nowhere |
| InterfaceKey.FirstMatchIs | cvp_add_hardware_binding.py:205 | a match with no match starting before it is the first element of `re.findall` |
| InterfaceKey.MatchEndUnique | cvp_add_hardware_binding.py:205 | two matches from the same start end at the same place, so the greedy run is the match |
| InterfaceKey.SortKey | cvp_add_hardware_binding.py:205 | definition: the numerals of the first match, split on `/`; the empty list where the key function raises |
| InterfaceKey.HeadMatch | cvp_add_hardware_binding.py:205 | in a one-line header followed by an indented line, the first match is the run of digits and slashes ending the header |
| InterfaceKey.StanzaKey | cvp_add_hardware_binding.py:205 | the first regular-expression match in a rendered stanza is its interface name's numerals, so its key is the name's key |
| InterfaceKey.KeyFromLaterLines | cvp_add_hardware_binding.py:205 | a header ending in neither digit nor slash does not affect the match: the key comes from the lines after it |
| StableSort.Insert | cvp_add_hardware_binding.py:205 | insertion keeps the multiset plus the new element |
| StableSort.Sort | cvp_add_hardware_binding.py:205 | the sort is a permutation of its input |
| StableSort.InsertBound | cvp_add_hardware_binding.py:205 | inserting a block no smaller than a bound among blocks no smaller than it leaves every block no smaller |
| StableSort.InsertSorted | cvp_add_hardware_binding.py:205 | inserting into a sorted list keeps it sorted |
| StableSort.SortSorted | cvp_add_hardware_binding.py:205 | the result is sorted by key |
| StableSort.InsertStable | cvp_add_hardware_binding.py:205 | insertion keeps every equal-key group in input order |
| StableSort.SortStable | cvp_add_hardware_binding.py:205 | elements with equal keys keep their input order |
| StableSort.SortSpec | cvp_add_hardware_binding.py:205 | sorted, a permutation, and stable, all together |
| StableSort.SortOfSorted | cvp_add_hardware_binding.py:205 | sorting an already sorted list changes nothing |
| Configlet.MemberStanzas | cvp_add_hardware_binding.py:142-143 | one member stanza per local member, in order |
| Configlet.RenderMembers | cvp_add_hardware_binding.py:142-143 | the loop appends exactly the member stanzas, in member order |
| Configlet.NewStanzasSnoc | cvp_add_hardware_binding.py:139-172 | rendering one more port keeps an earlier stop, stops at that port's invalid mode, or appends its Ethernet and port-channel stanzas |
| Configlet.NewStanzasStop | cvp_add_hardware_binding.py:159-171 | rendering stops at the first port with an invalid mode; later ports do not matter |
| Configlet.NewStanzasInvalidIff | cvp_add_hardware_binding.py:139-172 | rendering fails exactly when some mode is invalid, and it reports the first such port |
| Configlet.RenderStanzas | cvp_add_hardware_binding.py:139-172 | the loop builds exactly the Ethernet and port-channel stanza lists the specification function gives |
| Configlet.StanzaLines | cvp_add_hardware_binding.py:143-169 | splitting a stanza at its line indentation gives back its header and directives |
| Configlet.IndentedLines | cvp_add_hardware_binding.py:143-169 | indented directives split back into the directive list |
| Configlet.StanzaHasKey | cvp_add_hardware_binding.py:143-169 | a rendered stanza of a numbered interface has a sort key, and it is the name's key |
| Configlet.MemberStanzasHaveKeys | cvp_add_hardware_binding.py:142-143 | every member stanza of numbered members has a sort key |
| Configlet.PortStanzasHaveKeys | cvp_add_hardware_binding.py:139-170 | every stanza rendered for a port with numbered names has a sort key |
| Configlet.NewStanzasHaveKeys | cvp_add_hardware_binding.py:139-172 | every new stanza has a sort key when every name is numbered |
| Configlet.ChannelLinesMlag | cvp_add_hardware_binding.py:144-158 | the port-channel stanza carries "mlag <id>" exactly when the port is MLAG |
| Configlet.FirstContainedMeaning | cvp_add_hardware_binding.py:178-190 | no name is reported iff none occurs; a reported name occurs and is the first that does |
| Configlet.FirstContainedSkip | cvp_add_hardware_binding.py:178-190 | names that do not occur do not change the result |
| Configlet.CheckedNamesAppend | cvp_add_hardware_binding.py:178-190 | the names checked for a concatenated map are those of its first part, then those of its second |
| Configlet.CheckedNamesPrefix | cvp_add_hardware_binding.py:178-190 | the names checked for the first n ports open the names checked for the whole map |
| Configlet.CheckedNamesStep | cvp_add_hardware_binding.py:178-190 | port i's names are checked right after those of the ports before it |
| Configlet.FirstContainedIn | cvp_add_hardware_binding.py:178-190 | when no name before a port's names occurs and its j-th name is the first of them that does, that name is the one reported |
| Configlet.FindMember | cvp_add_hardware_binding.py:180-185 | the index is of the first member that occurs in the text, or the member count when none does |
| Configlet.FindConflict | cvp_add_hardware_binding.py:178-190 | the loop returns the first member or port name found in the configlet text |
| Configlet.PartitionBlocks | cvp_add_hardware_binding.py:193-200 | the loop keeps exactly the Ethernet blocks and the port-channel blocks, in order |
| Configlet.EthNotChannel | cvp_add_hardware_binding.py:196-199 | a block starting "interface Eth" does not start "interface Port", so no block lands in both groups |
| Configlet.EthBlocksMeaning | cvp_add_hardware_binding.py:193-200 | a block is kept as Ethernet iff it is in the configlet and starts "interface Eth" |
| Configlet.ChannelBlocksMeaning | cvp_add_hardware_binding.py:193-200 | a block is kept as port-channel iff it is in the configlet and starts "interface Port" |
| Configlet.PartitionCount | cvp_add_hardware_binding.py:193-200 | the two groups together hold each block no more often than the configlet does |
| Configlet.PartitionMeaning | cvp_add_hardware_binding.py:193-200 | a block is kept as Ethernet (port-channel) iff it starts "interface Eth" ("interface Port"); nothing is duplicated |
| Configlet.Render | cvp_add_hardware_binding.py:205-222 | definition: each group sorted by key and joined by blank lines, the port-channel group first when there is one |
| Configlet.Merge | cvp_add_hardware_binding.py:193-212 | definition: the stored text split into blocks, its Ethernet and port-channel blocks kept and extended by the new stanzas, then rendered |
| Configlet.RenderLayout | cvp_add_hardware_binding.py:213-222 | port-channels come first, joined by blank lines; without Ethernet stanzas the text ends in one separator |
| Configlet.MergeGroups | cvp_add_hardware_binding.py:193-212 | each merged group is sorted, a permutation of the old blocks plus the new ones, and old blocks precede new ones with the same key |
| Configlet.FirstUnkeyed | cvp_add_hardware_binding.py:205-217 | none iff every block has a key; otherwise the first block, in the order `sorted` computes keys, whose key raises |
| Configlet.AfterSortMeaning | cvp_add_hardware_binding.py:205-217 | the sort gives the planned outcome iff every block has a key, and otherwise stops on the first block without one |
| Configlet.PlanRendered | cvp_add_hardware_binding.py:174-243 | definition: create on a failed lookup, replace an empty text, otherwise refuse a conflict or merge; each written text first sorted |
| Configlet.RenderedCases | cvp_add_hardware_binding.py:174-243 | once rendered: conflict iff a checked name occurs; crash iff no conflict and some sorted block lacks a key; create or update otherwise, with the written text |
| Configlet.Plan | cvp_add_hardware_binding.py:127-244 | definition: nothing for no ports, abort on the first invalid mode, otherwise the rendered outcome |
| Configlet.SwitchConfigletUpdate | cvp_add_hardware_binding.py:127-244 | the update computes exactly the outcome of the specification function, the sort's crash included |
| Configlet.PlanNoPorts | cvp_add_hardware_binding.py:137 | a switch with no ports is left alone |
| Configlet.PlanBadMode | cvp_add_hardware_binding.py:159-171 | the update aborts for a bad mode iff there are ports and some mode is invalid |
| Configlet.NoConflictMeaning | cvp_add_hardware_binding.py:176-190 | there is no conflict iff the stored text is empty or none of the checked names occurs in it |
| Configlet.PlanConflict | cvp_add_hardware_binding.py:176-190 | a conflict is reported iff the stored text is non-empty and contains a checked name, and the name reported occurs in it |
| Configlet.PlanUnsortable | cvp_add_hardware_binding.py:201-217 | the sort crashes iff there are ports, every mode is valid, there is no conflict and some block whose key is computed has none; the block reported is the first such |
| Configlet.PlanSortable | cvp_add_hardware_binding.py:139-217 | numbered interface names and a stored text whose kept blocks have keys never make the sort crash |
| Configlet.PlanCreate | cvp_add_hardware_binding.py:225-243 | a configlet is created iff CVP has none and the sort succeeds, named "<switch> Switchports" and holding only the new stanzas, sorted |
| Configlet.PlanUpdate | cvp_add_hardware_binding.py:174-224 | an update happens iff there is a stored configlet, no conflict and the sort succeeds; it writes under the stored key: a merge when the stored text is non-empty, the new stanzas alone otherwise |
| Configlet.UpdateConfiglets | cvp_add_hardware_binding.py:425-430 | each switch gets its outcome in order; the loop stops right after the first bad mode, conflict or crash in the sort, and nowhere else |
| CvpTasks.SelectedIds | cvp_add_hardware_binding.py:256-262 | definition: the work-order ids of the pending configlet-assignment tasks on a listed switch created by this user, in task order |
| CvpTasks.SelectedIdsMeaning | cvp_add_hardware_binding.py:256-262 | a work order is executed iff a selected task (configlet assignment, listed switch, same user) carries it; no more ids than tasks |
| CvpTasks.SelectedIdsCount | cvp_add_hardware_binding.py:256-262 | exactly one execution per selected task: as many ids as selected task positions |
| CvpTasks.ExecutePendingTasks | cvp_add_hardware_binding.py:256-262 | the loop executes exactly the selected work orders, in task order |
| Eapi.MemberRun | eapi_add_hardware_binding.py:176-190 | definition: each member checked, then configured; the first configured member ends the run |
| Eapi.ExtraBatches | eapi_add_hardware_binding.py:192-272 | definition: `mlag <id>` for an MLAG port-channel, nothing for another port-channel, the speed for a physical port |
| Eapi.PortRun | eapi_add_hardware_binding.py:165-275 | definition: check the port, run its members, then the mode batch and the extra batch, or stop |
| Eapi.Plan | eapi_add_hardware_binding.py:154-278 | definition: the ports' run, with one `write` when every port went through |
| Eapi.Switch.constructor | eapi_add_hardware_binding.py:162 | a fresh connection has sent nothing |
| Eapi.Switch.ShowRunningConfig | eapi_add_hardware_binding.py:146 | one show request is logged and the interface's running configuration returned |
| Eapi.Switch.Configure | eapi_add_hardware_binding.py:182-190 | one configuration batch is logged |
| Eapi.Switch.Save | eapi_add_hardware_binding.py:277 | one `write` is logged |
| Eapi.ConfigCheck | eapi_add_hardware_binding.py:133-152 | one show is sent; the result is 1 iff the output is longer than 26 characters |
| Eapi.MemberRunStop | eapi_add_hardware_binding.py:176-181 | the member loop stops at the first configured member; later members do not matter |
| Eapi.PortsRunStop | eapi_add_hardware_binding.py:164-275 | the port loop stops at the first configured interface or bad mode |
| Eapi.ConfigureMembers | eapi_add_hardware_binding.py:176-190 | the requests logged and the stop are those of the member specification |
| Eapi.ConfigurePort | eapi_add_hardware_binding.py:165-275 | the requests logged and the stop are those of the port specification |
| Eapi.ConfigureMode | eapi_add_hardware_binding.py:192-272 | logs the mode batch, then `mlag <id>` for an MLAG port-channel or the speed for a physical port |
| Eapi.SwitchportConfigUpdate | eapi_add_hardware_binding.py:154-278 | the requests logged and the stop are those of the switch plan, `write` included |
| Eapi.CheckedFirstAppend | eapi_add_hardware_binding.py:164-275 | "every batch is preceded by a show of its interface" survives concatenation |
| Eapi.ShowThenBatches | eapi_add_hardware_binding.py:166-190 | a show followed by batches for that interface is checked-first |
| Eapi.MemberRunChecked | eapi_add_hardware_binding.py:176-190 | every member batch is preceded by a show of that member |
| Eapi.PortBatchesTarget | eapi_add_hardware_binding.py:192-272 | every batch a port's configuration sends is addressed to that port |
| Eapi.ShowFrontThenBatches | eapi_add_hardware_binding.py:164-275 | batches for an interface may follow any checked request list that opens with that interface's show |
| Eapi.PortRunChecked | eapi_add_hardware_binding.py:165-275 | every batch of a port is preceded by a show of its interface |
| Eapi.PortsRunChecked | eapi_add_hardware_binding.py:164-275 | every batch of the run is preceded by a show of its interface |
| Eapi.PlanOrder | eapi_add_hardware_binding.py:164-278 | every batch is preceded by its show; a clean run ends with the one `write`, any other run sends none |
| Eapi.MemberRunClean | eapi_add_hardware_binding.py:176-181 | the member loop passes iff no member has configuration; otherwise it stops at a configured one |
| Eapi.PortRunClean | eapi_add_hardware_binding.py:165-275 | a port passes iff its mode is valid and neither it nor a member has configuration |
| Eapi.ClearSnoc | eapi_add_hardware_binding.py:164-275 | all modes valid and nothing configured holds for a map iff it holds for all but the last port and for that port |
| Eapi.PortsRunClean | eapi_add_hardware_binding.py:164-275 | the port loop goes through every port iff every mode is valid and no checked interface has configuration |
| Eapi.PlanSaved | eapi_add_hardware_binding.py:276-278 | the configuration is saved iff every mode is valid and no checked interface has configuration |
| Eapi.PlanConfigured | eapi_add_hardware_binding.py:168-181 | a run that stops on a configured interface did find configuration there, and that interface's show is the last request |
| Eapi.MemberRunConfigured | eapi_add_hardware_binding.py:176-181 | a member stop names a configured member, whose show is the last request; the member loop never reports a bad mode |
| Eapi.CleanMembers | eapi_add_hardware_binding.py:176-190 | 2n requests for n members: member k's show at 2k and its batch at 2k+1 |
| Eapi.CleanMembersLast | eapi_add_hardware_binding.py:176-190 | one more member appends its show and its batch |
| Eapi.MemberRunBatches | eapi_add_hardware_binding.py:176-190 | with no member configured, the member loop sends exactly each member's show and batch, in order, and passes |
| Eapi.ModeAbortAfterMembers | eapi_add_hardware_binding.py:165-190 | with clean members and an invalid mode, the run is the port's show and every member's show and batch, and no mode batch |
| Eapi.UpdateSwitches | eapi_add_hardware_binding.py:402-407 | switches run in order; the loop stops right after the first failing switch; later switches get no requests |
| Binding.MatchCountMeaning | cvp_add_hardware_binding.py:299-320 | at least one notice is printed iff some binding has exactly this switch and port, and never more than one per binding |
| Binding.BindingCheck | eapi_add_hardware_binding.py:295-316 | the number of notices is the number of matching bindings, whatever the reply holds: none, one or many |
| Binding.Target | cvp_add_hardware_binding.py:335-361 | definition: "mlag-<domain>" and "Mlag<id>" for an MLAG port-channel, the switch and port otherwise (see TargetOfPortChannel) |
| Binding.PortVlan | cvp_add_hardware_binding.py:348-351 | definition: VLAN "0" for an access port, the logical switch's VLAN otherwise |
| Binding.Reports | cvp_add_hardware_binding.py:333-366 | definition: one report per port, in map order (see ReportsIndex) |
| Binding.ReportsIndex | cvp_add_hardware_binding.py:333-366 | there is one report per port, and the i-th is the single-port step for port i with its reply and status |
| Binding.PortStepMeaning | cvp_add_hardware_binding.py:333-366 | for one port, the request is the port's own, it is bound iff the status is 200, and notices appear iff it is already bound |
| Binding.ReportsSnoc | cvp_add_hardware_binding.py:333-366 | one more port appends exactly its own report |
| Binding.ReportsPerPort | create_logical_switch.py:165-209 | one post per port, in order; the request is the port's; bound iff 200; notices iff already bound |
| Binding.TargetOfPortChannel | cvp_add_hardware_binding.py:335-357 | an MLAG Port-Channel<n> binds as port Mlag<n> of switch mlag-<domain>; otherwise under its own names |
| Binding.HardwareBinding | cvp_add_hardware_binding.py:322-366 | the loop produces exactly the per-port reports of the specification |
| Binding.BindAll | cvp_add_hardware_binding.py:438-440 | every switch is bound, in order, whatever happened to the previous ones |
| LogicalSwitch.LastNamedMeaning | cvp_add_hardware_binding.py:414-418 | the switch used has the tenant's name and no later one has it; there is none iff no switch has it |
| LogicalSwitch.FindTenantSwitch | eapi_add_hardware_binding.py:395-399 | the last switch with the name wins; its id and derived VLAN are returned |
| LogicalSwitch.NameTaken | create_logical_switch.py:258-262 | true iff some listed switch has the name |
| LogicalSwitch.CreatePlan | create_logical_switch.py:256-277 | definition: a duplicate name first, then created on status 201, failed otherwise (see CreatePlanMeaning) |
| LogicalSwitch.CreateLogicalSwitch | create_logical_switch.py:230-277 | the flow computes the outcome of the specification function |
| LogicalSwitch.CreatePlanMeaning | create_logical_switch.py:256-277 | no post on a duplicate; otherwise the post carries the name and tenant; created iff 201, with the body as id and the VLAN from the new VNI |

## Left out

- Network I/O is left out: the HTTP calls to NSX, XML encoding and decoding, CVP's client, pyeapi connections, password prompts and logging. Every reply is a parameter.
- `eapi_mlag_config_check` queries `show mlag` for the domain id. The domain is a parameter of the binding planner.
- The `hardwaregateways` and `scopes` lookups are left out. Their ids (`hw_id`, the scope id) are parameters.
- The show queries of `switchport_config_update` whose replies are never read (lines 166 and 178) are not logged. Only the show each check makes is logged.
- Eapi: the switch answers every show from a fixed running configuration. Batches pushed earlier in the run do not change later answers, and eAPI errors are not modelled.
- Configlet.SwitchConfigletUpdate: a `CvpApiError` raised by `update_configlet` falls into the create branch in the source. This is not modelled: the lookup alone decides update or create.
- After the create branch, the configlet is applied to the device and a task is created. Neither is modelled: the outcome stops at the configlet's name and text.
- The task executor's log polling (lines 263-269 of cvp_add_hardware_binding.py) is not modelled. It only prints.
- Two inputs that make the scripts raise are excluded by preconditions rather than modelled as errors:
  - a port-channel name without an `l`. The configlet update and the eAPI pusher split the name of every port-channel they reach on `l`. Their precondition, WellFormedPorts, asks this of every port-channel in the map. So it also excludes runs that stop before reaching such a port: an earlier bad mode in the configlet update, or an earlier configured interface or bad mode in the eAPI pusher. The binding planner splits only MLAG port-channels, so its precondition is BindablePorts, and it accepts a non-MLAG port-channel without an `l`, as create_logical_switch.py does;
  - a VNI with no characters (VnisPresent; `|newVdnId| >= 1` once a new switch was created).
- A block whose sort key raises is modelled: the update ends with `Unsortable` and the driver stops. The traceback itself is not modelled.
- InterfaceKey.IsSpace follows the whitespace table of Python 3's `str.isspace`. The regular expression is modelled only for this one pattern.
- LogicalSwitch.FindTenantSwitch: when no switch has the tenant's name, the source fails later on the unbound variable. The model returns `None`.
- LogicalSwitch.CreatePlan: a failed create leaves `ls_id` unbound, and the script fails at the next request. The model stops with `CreateFailed`.
- The MLAG login prompt loop (create_logical_switch.py:234-244) only reads credentials and is left out.
- Printed messages are not modelled. The notice count of the binding check and the outcome values stand for what is printed.
