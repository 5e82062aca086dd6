/**
 * The logical-switch steps of the scripts: finding the tenant's logical
 * switch by name and deriving its VLAN (cvp_add_hardware_binding.py and
 * eapi_add_hardware_binding.py), and creating a new logical switch after
 * a duplicate-name check (create_logical_switch.py). NSX's replies (the
 * logical-switch list, the create status and body, the new switch's VNI)
 * are inputs.
 */
module LogicalSwitch {
  import opened Wrappers
  import opened Text
  import opened Ports

  /** One logical switch ("virtual wire") as NSX lists it. */
  datatype VirtualWire = VirtualWire(name: string, objectId: string, vdnId: string)

  /** The tenant's logical switch: its id and the VLAN derived from its VNI. */
  datatype TenantSwitch = TenantSwitch(lsId: string, vlan: string)

  /** Every switch with this name has a VNI to derive a VLAN from (the scripts raise IndexError otherwise). */
  predicate VnisPresent(wires: seq<VirtualWire>, lsName: string) {
    forall i :: 0 <= i < |wires| && wires[i].name == lsName ==> |wires[i].vdnId| >= 1
  }

  /** The last listed switch with this name. */
  function LastNamed(wires: seq<VirtualWire>, lsName: string): Option<VirtualWire> {
    if |wires| == 0 then None
    else if wires[|wires| - 1].name == lsName then Some(wires[|wires| - 1])
    else LastNamed(wires[..|wires| - 1], lsName)
  }

  /** The last switch with the name is listed, has the name, and no later switch has it; None means none has it. */
  lemma {:induction false} LastNamedMeaning(wires: seq<VirtualWire>, lsName: string)
    ensures LastNamed(wires, lsName).None? <==> forall i :: 0 <= i < |wires| ==> wires[i].name != lsName
    ensures LastNamed(wires, lsName).Some? ==>
      exists i :: 0 <= i < |wires| && wires[i] == LastNamed(wires, lsName).value && wires[i].name == lsName &&
        forall j :: i < j < |wires| ==> wires[j].name != lsName
  {
    if |wires| > 0 && wires[|wires| - 1].name != lsName {
      var init := wires[..|wires| - 1];
      LastNamedMeaning(init, lsName);
      if LastNamed(init, lsName).Some? {
        var i :| 0 <= i < |init| && init[i] == LastNamed(init, lsName).value && init[i].name == lsName &&
          forall j :: i < j < |init| ==> init[j].name != lsName;
        assert wires[i] == init[i];
        forall j | i < j < |wires| ensures wires[j].name != lsName {
          if j < |init| {
            assert wires[j] == init[j];
          }
        }
      } else {
        forall i | 0 <= i < |wires| ensures wires[i].name != lsName {
          if i < |init| {
            assert wires[i] == init[i];
          }
        }
      }
    } else if |wires| > 0 {
      assert wires[|wires| - 1].name == lsName;
    }
  }

  /**
   * cvp_add_hardware_binding.py:414-418 (eapi_add_hardware_binding.py:395-399):
   * walks the list and keeps the id and derived VLAN of every switch with the
   * tenant's name, so the last one wins; None when no switch has it (the
   * scripts then fail on the unbound `ls_id`).
   */
  method FindTenantSwitch(wires: seq<VirtualWire>, lsName: string) returns (found: Option<TenantSwitch>)
    requires VnisPresent(wires, lsName)
    ensures LastNamed(wires, lsName).None? ==> found.None?
    ensures LastNamed(wires, lsName).Some? ==>
      |LastNamed(wires, lsName).value.vdnId| >= 1 &&
      found == Some(TenantSwitch(LastNamed(wires, lsName).value.objectId, VlanFromVni(LastNamed(wires, lsName).value.vdnId)))
  {
    found := None;
    var i := 0;
    while i < |wires|
      invariant 0 <= i <= |wires|
      invariant LastNamed(wires[..i], lsName).None? ==> found.None?
      invariant LastNamed(wires[..i], lsName).Some? ==>
        |LastNamed(wires[..i], lsName).value.vdnId| >= 1 &&
        found == Some(TenantSwitch(LastNamed(wires[..i], lsName).value.objectId,
                                   VlanFromVni(LastNamed(wires[..i], lsName).value.vdnId)))
    {
      assert wires[..i + 1][..i] == wires[..i];
      if wires[i].name == lsName {
        found := Some(TenantSwitch(wires[i].objectId, VlanFromVni(wires[i].vdnId)));
      }
      i := i + 1;
    }
    assert wires[..i] == wires;
  }

  /** The create request: body `{name, tenantId}` under the XML root `virtualWireCreateSpec`. */
  datatype CreateSpec = CreateSpec(root: string, name: string, tenantId: string)

  function CreateRequest(dataCenter: string, tenant: string, zone: string): CreateSpec {
    CreateSpec("virtualWireCreateSpec", LogicalSwitchName(dataCenter, tenant, zone), tenant)
  }

  /**
   * Lines 258-262: true as soon as a listed switch has the name (the script
   * then exits before creating anything).
   */
  method NameTaken(wires: seq<VirtualWire>, lsName: string) returns (taken: bool)
    ensures taken <==> exists i :: 0 <= i < |wires| && wires[i].name == lsName
  {
    var i := 0;
    while i < |wires|
      invariant 0 <= i <= |wires|
      invariant forall k :: 0 <= k < i ==> wires[k].name != lsName
    {
      if wires[i].name == lsName {
        return true;
      }
      i := i + 1;
    }
    return false;
  }

  /**
   * How create_logical_switch.py ends: a duplicate name exits before any post;
   * a create answered 201 yields the new switch's id (the response body) and
   * VLAN; any other status leaves `ls_id` unbound and the script fails.
   */
  datatype CreateOutcome =
    | Duplicate
    | Created(request: CreateSpec, lsId: string, vlan: string)
    | CreateFailed(request: CreateSpec)

  /** The script's outcome given the listed switches, the create status and body, and the new switch's VNI. */
  function CreatePlan(dataCenter: string, tenant: string, zone: string, wires: seq<VirtualWire>,
                      status: int, body: string, newVdnId: string): CreateOutcome
    requires !(exists i :: 0 <= i < |wires| && wires[i].name == LogicalSwitchName(dataCenter, tenant, zone)) && status == 201
      ==> |newVdnId| >= 1
  {
    var lsName := LogicalSwitchName(dataCenter, tenant, zone);
    if exists i :: 0 <= i < |wires| && wires[i].name == lsName then Duplicate
    else if status == 201 then Created(CreateRequest(dataCenter, tenant, zone), body, VlanFromVni(newVdnId))
    else CreateFailed(CreateRequest(dataCenter, tenant, zone))
  }

  /**
   * Lines 230 and 256-277: name the switch, refuse a duplicate, post the
   * create request, read the id on 201, and derive the VLAN of the new switch.
   */
  method CreateLogicalSwitch(dataCenter: string, tenant: string, zone: string, wires: seq<VirtualWire>,
                             status: int, body: string, newVdnId: string) returns (outcome: CreateOutcome)
    requires !(exists i :: 0 <= i < |wires| && wires[i].name == LogicalSwitchName(dataCenter, tenant, zone)) && status == 201
      ==> |newVdnId| >= 1
    ensures outcome == CreatePlan(dataCenter, tenant, zone, wires, status, body, newVdnId)
  {
    var lsName := LogicalSwitchName(dataCenter, tenant, zone);
    var taken := NameTaken(wires, lsName);
    if taken {
      return Duplicate;
    }
    var request := CreateSpec("virtualWireCreateSpec", lsName, tenant);
    if status != 201 {
      return CreateFailed(request);
    }
    var lsId := body;
    var vlan := [newVdnId[0]] + LastTwo(newVdnId);
    return Created(request, lsId, vlan);
  }

  /**
   * No create request is posted when the name is taken; otherwise exactly the
   * request for the composed name and the tenant is posted, and the switch is
   * created only on status 201, with the response body as its id.
   */
  lemma CreatePlanMeaning(dataCenter: string, tenant: string, zone: string, wires: seq<VirtualWire>,
                          status: int, body: string, newVdnId: string)
    requires !(exists i :: 0 <= i < |wires| && wires[i].name == LogicalSwitchName(dataCenter, tenant, zone)) && status == 201
      ==> |newVdnId| >= 1
    ensures var out := CreatePlan(dataCenter, tenant, zone, wires, status, body, newVdnId);
      (out.Duplicate? <==> exists i :: 0 <= i < |wires| && wires[i].name == "vls" + dataCenter + tenant + zone) &&
      (out.Created? <==> !out.Duplicate? && status == 201) &&
      (!out.Duplicate? ==>
         out.request == CreateSpec("virtualWireCreateSpec", "vls" + dataCenter + tenant + zone, tenant)) &&
      (out.Created? ==> out.lsId == body && out.vlan == VlanFromVni(newVdnId))
  {
    assert LogicalSwitchName(dataCenter, tenant, zone) == "vls" + dataCenter + tenant + zone;
  }
}
