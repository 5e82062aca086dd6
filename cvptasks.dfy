/**
 * The pending-task filter of `execute_pending_tasks` in
 * cvp_add_hardware_binding.py: of CVP's pending tasks, only configlet
 * assignments on the switches of the input file that the current user
 * created are executed, in CVP's order.
 */
module CvpTasks {
  import opened Text

  /** The fields of a pending CVP task that the filter reads. */
  datatype Task = Task(description: string, hostName: string, createdBy: string, workOrderId: string)

  /** A task the script executes: a configlet assignment, on one of the switches, created by the user. */
  predicate Selected(t: Task, switches: seq<string>, user: string) {
    StartsWith(t.description, "Configlet Assign") && t.hostName in switches && t.createdBy == user
  }

  /** The work-order ids of the selected tasks, in task order. */
  function SelectedIds(tasks: seq<Task>, switches: seq<string>, user: string): seq<string> {
    if |tasks| == 0 then []
    else
      var t := tasks[|tasks| - 1];
      SelectedIds(tasks[..|tasks| - 1], switches, user) + (if Selected(t, switches, user) then [t.workOrderId] else [])
  }

  /**
   * An id is executed exactly when some selected task carries it, and no more
   * ids are executed than there are pending tasks.
   */
  lemma {:induction false} SelectedIdsMeaning(tasks: seq<Task>, switches: seq<string>, user: string)
    ensures |SelectedIds(tasks, switches, user)| <= |tasks|
    ensures forall id :: id in SelectedIds(tasks, switches, user) <==>
      exists i :: 0 <= i < |tasks| && Selected(tasks[i], switches, user) && tasks[i].workOrderId == id
  {
    if |tasks| > 0 {
      var init := tasks[..|tasks| - 1];
      SelectedIdsMeaning(init, switches, user);
      forall id | id in SelectedIds(tasks, switches, user)
        ensures exists i :: 0 <= i < |tasks| && Selected(tasks[i], switches, user) && tasks[i].workOrderId == id
      {
        if id in SelectedIds(init, switches, user) {
          var i :| 0 <= i < |init| && Selected(init[i], switches, user) && init[i].workOrderId == id;
          assert tasks[i] == init[i];
        }
      }
      forall id | exists i :: 0 <= i < |tasks| && Selected(tasks[i], switches, user) && tasks[i].workOrderId == id
        ensures id in SelectedIds(tasks, switches, user)
      {
        var i :| 0 <= i < |tasks| && Selected(tasks[i], switches, user) && tasks[i].workOrderId == id;
        if i < |init| {
          assert init[i] == tasks[i];
        }
      }
    }
  }

  /** The positions of the tasks the filter selects. */
  ghost function SelectedPositions(tasks: seq<Task>, switches: seq<string>, user: string): set<nat> {
    set i: nat | i < |tasks| && Selected(tasks[i], switches, user)
  }

  /** Exactly one execution per selected task: the ids executed are as many as the tasks selected. */
  lemma {:induction false} SelectedIdsCount(tasks: seq<Task>, switches: seq<string>, user: string)
    ensures |SelectedIds(tasks, switches, user)| == |SelectedPositions(tasks, switches, user)|
  {
    if |tasks| > 0 {
      var n := |tasks| - 1;
      var init := tasks[..n];
      SelectedIdsCount(init, switches, user);
      var before := SelectedPositions(init, switches, user);
      var extra: set<nat> := if Selected(tasks[n], switches, user) then {n} else {};
      assert SelectedPositions(tasks, switches, user) == before + extra by {
        forall i: nat | i < n ensures init[i] == tasks[i] { }
      }
      assert n !in before;
    }
  }

  /** Lines 256-262: walks the pending tasks and executes each selected one, returning the ids executed. */
  method ExecutePendingTasks(tasks: seq<Task>, switches: seq<string>, user: string) returns (executed: seq<string>)
    ensures executed == SelectedIds(tasks, switches, user)
  {
    executed := [];
    var i := 0;
    while i < |tasks|
      invariant 0 <= i <= |tasks|
      invariant executed == SelectedIds(tasks[..i], switches, user)
    {
      assert tasks[..i + 1][..i] == tasks[..i];
      var t := tasks[i];
      if StartsWith(t.description, "Configlet Assign") {
        if t.hostName in switches {
          if t.createdBy == user {
            executed := executed + [t.workOrderId];
          }
        }
      }
      i := i + 1;
    }
    assert tasks[..i] == tasks;
  }
}
