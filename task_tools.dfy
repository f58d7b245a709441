/** The plan-mode tools (codeagent/tools/task_tools.py). The context variable
    holding the active TaskManager becomes a parameter; null means that no
    plan mode is active. */
module TaskTools {
  import opened Common
  import opened Tasks

  const NoPlanManager: string := "Error: Plan Mode is not active or TaskManager is not initialized."
  const NoPlanMode: string := "Error: Plan Mode is not active."
  const PlanCreated: string := "Plan created successfully.\n"

  /** The reply of a successful update_task_status, in front of the summary. */
  function UpdatedHeader(id: string, status: TaskStatus): string {
    "Task " + id + " updated to " + StatusValue(status) + ".\n"
  }

  /** The reply when update_task raises its ValueError. */
  function UpdateFailure(message: string): string {
    "Error updating task: " + message
  }

  /** plan_task: without a manager, an error and nothing changes; otherwise the
      plan is replaced by the declared items and the reply carries its summary. */
  method PlanTask(tm: TaskManager?, items: seq<TaskItem>) returns (reply: string)
    modifies tm
    ensures tm == null ==> reply == NoPlanManager
    ensures tm != null ==>
      tm.Valid() && Plan(tm.order, tm.tasks) == BuildPlan(items) &&
      reply == PlanCreated + PlanSummary(tm.tasks, tm.order)
  {
    if tm == null {
      return NoPlanManager;
    }
    tm.CreatePlan(items);
    var summary := tm.GetPlanSummary();
    reply := PlanCreated + summary;
  }

  /** update_task_status: without a manager, an error; an unknown id reports
      update_task's message and changes nothing; otherwise the task is updated
      and the reply names its new status ahead of the summary. */
  method UpdateTaskStatus(tm: TaskManager?, id: string, status: TaskStatus,
                          result: Option<string>, error: Option<string>)
    returns (reply: string)
    requires tm != null ==> tm.Valid()
    modifies tm
    ensures tm == null ==> reply == NoPlanMode
    ensures tm != null ==> tm.Valid() && tm.order == old(tm.order)
    ensures tm != null && id !in old(tm.tasks) ==>
      tm.tasks == old(tm.tasks) && reply == UpdateFailure("Task " + id + " not found.")
    ensures tm != null && id in old(tm.tasks) ==>
      tm.tasks == old(tm.tasks)[id := Updated(old(tm.tasks)[id], status, result, error)] &&
      reply == UpdatedHeader(id, status) + PlanSummary(tm.tasks, tm.order)
  {
    if tm == null {
      return NoPlanMode;
    }
    var failure := tm.UpdateTask(id, status, result, error);
    if failure.Some? {
      return UpdateFailure(failure.value);
    }
    var summary := tm.GetPlanSummary();
    reply := UpdatedHeader(id, status) + summary;
  }

  /** After a successful update the reply shows the task's line, and that line
      opens with the icon of the new status. */
  lemma UpdateReplyShowsTask(tasks: map<string, Task>, order: seq<string>, id: string, status: TaskStatus,
                             result: Option<string>, error: Option<string>)
    requires WellFormed(Plan(order, tasks)) && id in tasks
    ensures var after := tasks[id := Updated(tasks[id], status, result, error)];
      var line := TaskLines(after[id]);
      Contains(UpdatedHeader(id, status) + PlanSummary(after, order), line) &&
      IconStatus(line[..3]) == Some(status)
  {
    var after := tasks[id := Updated(tasks[id], status, result, error)];
    assert id in order;
    var k :| 0 <= k < |order| && order[k] == id;
    SummaryListsEveryTask(after, order, k);
    ContainsPrepend(UpdatedHeader(id, status), PlanSummary(after, order), TaskLines(after[id]));
    TaskLinesShape(after[id]);
  }

  /** The update reply's header is never mistaken for a failure. */
  lemma UpdateRepliesDiffer(id: string, status: TaskStatus, summary: string, message: string)
    ensures UpdatedHeader(id, status) + summary != UpdateFailure(message)
    ensures UpdatedHeader(id, status) + summary != NoPlanMode
  {
    assert (UpdatedHeader(id, status) + summary)[0] == 'T';
    assert UpdateFailure(message)[0] == 'E';
    assert NoPlanMode[0] == 'E';
  }

  /** A client following the plan-mode scenario: declare a chain, complete its first task. */
  method PlanModeScenario()
  {
    var tm := new TaskManager();
    var reply := PlanTask(tm, [TaskItem("a", "A", []), TaskItem("b", "B", ["a"])]);
    ChainScenario();
    var next := tm.GetNextTask();
    assert next.Some? && next.value.id == "a";
    reply := UpdateTaskStatus(tm, "a", Completed, None, None);
    next := tm.GetNextTask();
    assert next.Some? && next.value.id == "b";
  }

  /** Without plan mode both tools refuse. */
  method NoPlanModeScenario()
  {
    var reply := PlanTask(null, []);
    assert reply == NoPlanManager;
    reply := UpdateTaskStatus(null, "a", Completed, None, None);
    assert reply == NoPlanMode;
  }
}
