/** The plan store (codeagent/core/task_manager.py): an insertion-ordered
    map from task id to task, a "next ready task" scan, status updates and a
    text summary of the plan. */
module Tasks {
  import opened Common

  datatype TaskStatus = Pending | InProgress | Completed | Failed | Skipped

  /** The enum's string value. */
  function StatusValue(s: TaskStatus): string {
    match s
    case Pending => "pending"
    case InProgress => "in_progress"
    case Completed => "completed"
    case Failed => "failed"
    case Skipped => "skipped"
  }

  /** One entry of a plan declaration. */
  datatype TaskItem = TaskItem(id: string, description: string, dependencies: seq<string>)

  datatype Task = Task(
    id: string,
    description: string,
    dependencies: seq<string>,
    status: TaskStatus,
    result: Option<string>,
    error: Option<string>)

  /** `Task(**item)`: a fresh task is pending, with no result and no error. */
  function NewTask(item: TaskItem): (t: Task)
    ensures t.id == item.id && t.description == item.description && t.dependencies == item.dependencies
    ensures t.status == Pending && t.result == None && t.error == None
  {
    Task(item.id, item.description, item.dependencies, Pending, None, None)
  }

  // ---------------------------------------------------------------------------
  // The plan as a value: the dictionary's keys in insertion order, and its entries

  datatype Plan = Plan(order: seq<string>, tasks: map<string, Task>)

  ghost predicate WellFormed(p: Plan) {
    (forall i, j :: 0 <= i < j < |p.order| ==> p.order[i] != p.order[j]) &&
    (forall id :: id in p.tasks <==> id in p.order) &&
    (forall id :: id in p.tasks ==> p.tasks[id].id == id)
  }

  /** The loop of create_plan: `self.tasks[task.id] = task` for each item in turn.
      A new key goes to the end; an existing key keeps its place and gets the new task. */
  function BuildPlan(items: seq<TaskItem>): Plan
    decreases |items|
  {
    if |items| == 0 then Plan([], map[])
    else
      var p := BuildPlan(items[..|items| - 1]);
      var x := items[|items| - 1];
      Plan(if x.id in p.tasks then p.order else p.order + [x.id], p.tasks[x.id := NewTask(x)])
  }

  predicate Declares(items: seq<TaskItem>, id: string) {
    exists k :: 0 <= k < |items| && items[k].id == id
  }

  /** x is declared somewhere before y is first declared. */
  predicate DeclaredBefore(items: seq<TaskItem>, x: string, y: string) {
    exists a :: 0 <= a < |items| && items[a].id == x && forall b :: 0 <= b <= a ==> items[b].id != y
  }

  /** After create_plan the keys are exactly the declared ids, without duplicates. */
  lemma {:induction false} BuildPlanKeys(items: seq<TaskItem>)
    ensures var p := BuildPlan(items);
      WellFormed(p) && forall id :: id in p.tasks <==> Declares(items, id)
    decreases |items|
  {
    if |items| > 0 {
      var prefix := items[..|items| - 1];
      BuildPlanKeys(prefix);
      forall id ensures Declares(items, id) <==> Declares(prefix, id) || items[|items| - 1].id == id {
        if Declares(items, id) {
          var k :| 0 <= k < |items| && items[k].id == id;
          if k < |items| - 1 { assert prefix[k] == items[k]; }
        }
        if Declares(prefix, id) {
          var k :| 0 <= k < |prefix| && prefix[k].id == id;
          assert items[k] == prefix[k];
        }
      }
    }
  }

  /** The keys follow the first declaration of each id. */
  lemma {:induction false} BuildPlanFirstOccurrence(items: seq<TaskItem>)
    ensures var p := BuildPlan(items);
      forall i, j :: 0 <= i < j < |p.order| ==> DeclaredBefore(items, p.order[i], p.order[j])
    decreases |items|
  {
    if |items| > 0 {
      var n := |items|;
      var prefix := items[..n - 1];
      var x := items[n - 1];
      var q := BuildPlan(prefix);
      var p := BuildPlan(items);
      BuildPlanFirstOccurrence(prefix);
      BuildPlanKeys(prefix);
      forall i, j | 0 <= i < j < |p.order|
        ensures DeclaredBefore(items, p.order[i], p.order[j])
      {
        assert DeclaredBefore(prefix, p.order[i], p.order[j]) ==> DeclaredBefore(items, p.order[i], p.order[j]) by {
          if DeclaredBefore(prefix, p.order[i], p.order[j]) {
            var a :| 0 <= a < |prefix| && prefix[a].id == p.order[i] && forall b :: 0 <= b <= a ==> prefix[b].id != p.order[j];
            assert items[a] == prefix[a];
            assert forall b :: 0 <= b <= a ==> items[b] == prefix[b];
          }
        }
        if j < |q.order| {
          assert p.order[i] == q.order[i] && p.order[j] == q.order[j];
        } else {
          assert x.id !in q.tasks && p.order[j] == x.id && p.order[i] == q.order[i];
          assert q.order[i] in q.tasks;
          var a :| 0 <= a < |prefix| && prefix[a].id == p.order[i];
          assert items[a] == prefix[a];
          forall b | 0 <= b <= a ensures items[b].id != x.id {
            assert items[b] == prefix[b];
            assert !Declares(prefix, x.id);
          }
        }
      }
    }
  }

  /** Item k is the last one declaring id. */
  predicate LastDeclaration(items: seq<TaskItem>, id: string, k: int) {
    0 <= k < |items| && items[k].id == id && forall j :: k < j < |items| ==> items[j].id != id
  }

  /** Every task of tasks is the fresh task of the last item declaring its id. */
  ghost predicate BuiltFromLast(items: seq<TaskItem>, tasks: map<string, Task>) {
    forall id :: id in tasks ==> exists k :: LastDeclaration(items, id, k) && tasks[id] == NewTask(items[k])
  }

  /** Each key holds a fresh task built from the LAST item declaring that id. */
  lemma {:induction false} BuildPlanLastWins(items: seq<TaskItem>)
    ensures BuiltFromLast(items, BuildPlan(items).tasks)
    decreases |items|
  {
    if |items| > 0 {
      var n := |items|;
      var prefix := items[..n - 1];
      var x := items[n - 1];
      var p := BuildPlan(items);
      var q := BuildPlan(prefix);
      BuildPlanLastWins(prefix);
      forall id | id in p.tasks
        ensures exists k :: LastDeclaration(items, id, k) && p.tasks[id] == NewTask(items[k])
      {
        if id == x.id {
          assert LastDeclaration(items, id, n - 1) && p.tasks[id] == NewTask(items[n - 1]);
        } else {
          assert id in q.tasks;
          var k :| LastDeclaration(prefix, id, k) && q.tasks[id] == NewTask(prefix[k]);
          assert items[k] == prefix[k];
          assert forall j :: k < j < n - 1 ==> items[j] == prefix[j];
          assert LastDeclaration(items, id, k);
        }
      }
    }
  }

  // ---------------------------------------------------------------------------
  // Readiness and the next task

  predicate DependenciesMet(tasks: map<string, Task>, t: Task) {
    forall d :: d in t.dependencies ==> d in tasks && tasks[d].status == Completed
  }

  /** Pending, and every dependency exists and is completed. */
  predicate IsReady(tasks: map<string, Task>, t: Task) {
    t.status == Pending && DependenciesMet(tasks, t)
  }

  /** The first ready task in the given key order. */
  function NextReady(tasks: map<string, Task>, order: seq<string>): Option<Task>
    decreases |order|
  {
    if |order| == 0 then None
    else if order[0] in tasks && IsReady(tasks, tasks[order[0]]) then Some(tasks[order[0]])
    else NextReady(tasks, order[1..])
  }

  /** NextReady returns the first ready task in key order, and None exactly when no task is ready. */
  lemma {:induction false} NextReadySpec(tasks: map<string, Task>, order: seq<string>)
    requires forall k :: 0 <= k < |order| ==> order[k] in tasks
    ensures var r := NextReady(tasks, order);
      (r.Some? ==> exists k :: 0 <= k < |order| && r.value == tasks[order[k]] && IsReady(tasks, r.value) &&
                     forall j :: 0 <= j < k ==> !IsReady(tasks, tasks[order[j]])) &&
      (r.None? <==> forall k :: 0 <= k < |order| ==> !IsReady(tasks, tasks[order[k]]))
    decreases |order|
  {
    if |order| > 0 && !IsReady(tasks, tasks[order[0]]) {
      var tail := order[1..];
      NextReadySpec(tasks, tail);
      var r := NextReady(tasks, tail);
      if r.Some? {
        var k :| 0 <= k < |tail| && r.value == tasks[tail[k]] && IsReady(tasks, r.value) &&
          forall j :: 0 <= j < k ==> !IsReady(tasks, tasks[tail[j]]);
        assert order[k + 1] == tail[k];
        assert forall j :: 1 <= j < k + 1 ==> order[j] == tail[j - 1];
      }
      assert forall k :: 1 <= k < |order| ==> order[k] == tail[k - 1];
    }
  }

  /** On a well-formed plan: a returned task is one of the plan's tasks, is ready and no task
      stored before it is; None means that no task of the plan is ready. */
  lemma NextReadyMeaning(p: Plan)
    requires WellFormed(p)
    ensures var r := NextReady(p.tasks, p.order);
      (r.Some? ==>
         r.value in p.tasks.Values && IsReady(p.tasks, r.value) &&
         (exists k :: 0 <= k < |p.order| && r.value == p.tasks[p.order[k]] &&
            forall j :: 0 <= j < k ==> !IsReady(p.tasks, p.tasks[p.order[j]]))) &&
      (r.None? <==> forall id :: id in p.tasks ==> !IsReady(p.tasks, p.tasks[id]))
  {
    NextReadySpec(p.tasks, p.order);
  }

  /** A dependency on an id that is not in the plan keeps the task from ever being ready. */
  lemma DanglingDependencyBlocks(tasks: map<string, Task>, t: Task, d: string)
    requires d in t.dependencies && d !in tasks
    ensures !IsReady(tasks, t)
  {
  }

  /** update_task's effect on one task: the status always, result and error only when truthy. */
  function Updated(t: Task, status: TaskStatus, result: Option<string>, error: Option<string>): (u: Task)
    ensures u.id == t.id && u.description == t.description && u.dependencies == t.dependencies
    ensures u.status == status
    ensures u.result == if Truthy(result) then result else t.result
    ensures u.error == if Truthy(error) then error else t.error
  {
    t.(status := status,
       result := if Truthy(result) then result else t.result,
       error := if Truthy(error) then error else t.error)
  }

  /** Updating an existing task keeps the key set, so a dangling dependency stays dangling. */
  lemma UpdateKeepsKeys(tasks: map<string, Task>, id: string, status: TaskStatus,
                        result: Option<string>, error: Option<string>)
    requires id in tasks
    ensures tasks[id := Updated(tasks[id], status, result, error)].Keys == tasks.Keys
  {
  }

  /** The two-task chain a <- b: first a is next, then b, then nothing. */
  lemma ChainScenario()
    ensures var p := BuildPlan([TaskItem("a", "A", []), TaskItem("b", "B", ["a"])]);
      var t1 := p.tasks["a" := Updated(p.tasks["a"], Completed, None, None)];
      var t2 := t1["b" := Updated(t1["b"], Completed, None, None)];
      p.order == ["a", "b"] &&
      NextReady(p.tasks, p.order) == Some(p.tasks["a"]) &&
      NextReady(t1, p.order) == Some(t1["b"]) &&
      NextReady(t2, p.order) == None
  {
    var a, b := TaskItem("a", "A", []), TaskItem("b", "B", ["a"]);
    var items := [a, b];
    assert items[..1] == [a];
    assert [a][..0] == [];
    assert BuildPlan([a][..0]) == Plan([], map[]);
    assert [] + ["a"] == ["a"];
    var p1 := BuildPlan([a]);
    assert p1 == Plan(["a"], map["a" := NewTask(a)]);
    assert "b" != "a";
    var p := BuildPlan(items);
    assert p == Plan(["a", "b"], map["a" := NewTask(a), "b" := NewTask(b)]);
    assert p.order[1..] == ["b"] && p.order[1..][1..] == [];
    assert IsReady(p.tasks, p.tasks["a"]);
    var t1 := p.tasks["a" := Updated(p.tasks["a"], Completed, None, None)];
    assert !IsReady(t1, t1["a"]);
    assert IsReady(t1, t1["b"]);
    var t2 := t1["b" := Updated(t1["b"], Completed, None, None)];
    assert !IsReady(t2, t2["a"]) && !IsReady(t2, t2["b"]);
  }

  // ---------------------------------------------------------------------------
  // The summary text

  function StatusIcon(s: TaskStatus): string {
    match s
    case Pending => "[ ]"
    case InProgress => "[>]"
    case Completed => "[X]"
    case Failed => "[!]"
    case Skipped => "[-]"
  }

  /** Reads an icon back. */
  function IconStatus(icon: string): Option<TaskStatus> {
    if icon == "[ ]" then Some(Pending)
    else if icon == "[>]" then Some(InProgress)
    else if icon == "[X]" then Some(Completed)
    else if icon == "[!]" then Some(Failed)
    else if icon == "[-]" then Some(Skipped)
    else None
  }

  function DepsSuffix(deps: seq<string>): string {
    if |deps| == 0 then "" else " (Deps: " + Join(deps, ", ") + ")"
  }

  function ResultLine(result: Option<string>): string {
    if Truthy(result) then "    Result: " + Prefix(result.value, 100) + "...\n" else ""
  }

  function ErrorLine(error: Option<string>): string {
    if Truthy(error) then "    Error: " + error.value + "\n" else ""
  }

  /** The lines one task contributes to the summary. */
  function TaskLines(t: Task): string {
    StatusIcon(t.status) + " Task " + t.id + ": " + t.description + DepsSuffix(t.dependencies) + "\n"
      + ResultLine(t.result) + ErrorLine(t.error)
  }

  /** What the summary loop adds for one key. */
  function Entry(tasks: map<string, Task>, id: string): string {
    if id in tasks then TaskLines(tasks[id]) else ""
  }

  function SummaryBody(tasks: map<string, Task>, order: seq<string>): string
    decreases |order|
  {
    if |order| == 0 then ""
    else SummaryBody(tasks, order[..|order| - 1]) + Entry(tasks, order[|order| - 1])
  }

  const SummaryHeader: string := "Current Task Plan:\n"
  const NoPlan: string := "No plan active."

  function PlanSummary(tasks: map<string, Task>, order: seq<string>): string {
    if tasks == map[] then NoPlan else SummaryHeader + SummaryBody(tasks, order)
  }

  /** The icon table is a code: every status is read back from its icon. */
  lemma IconRoundTrip(s: TaskStatus)
    ensures |StatusIcon(s)| == 3 && IconStatus(StatusIcon(s)) == Some(s)
  {
  }

  /** A task's line opens with its icon, id and description, so its status can be read off the
      first three characters; the dependency suffix is there only when it has dependencies; a
      result shows at most 100 of its characters and the error shows in full. */
  lemma TaskLinesShape(t: Task)
    ensures var line := TaskLines(t);
      StatusIcon(t.status) + " Task " + t.id + ": " + t.description <= line &&
      IconStatus(line[..3]) == Some(t.status) &&
      (DepsSuffix(t.dependencies) == "" <==> |t.dependencies| == 0) &&
      (Truthy(t.result) ==> |ResultLine(t.result)| <= 12 + 100 + 4) &&
      (Truthy(t.error) ==> ErrorLine(t.error) == "    Error: " + t.error.value + "\n")
  {
    var line := TaskLines(t);
    assert line[..3] == StatusIcon(t.status);
    IconRoundTrip(t.status);
  }

  /** One more stored key adds that task's lines to the body. */
  lemma SummaryBodyStep(tasks: map<string, Task>, order: seq<string>, i: nat)
    requires i < |order|
    ensures SummaryBody(tasks, order[..i + 1]) == SummaryBody(tasks, order[..i]) + Entry(tasks, order[i])
  {
    assert order[..i + 1][..i] == order[..i];
  }

  /** The body of a concatenated key list is the concatenation of the bodies. */
  lemma {:induction false} SummaryBodyAppend(tasks: map<string, Task>, a: seq<string>, b: seq<string>)
    ensures SummaryBody(tasks, a + b) == SummaryBody(tasks, a) + SummaryBody(tasks, b)
    decreases |b|
  {
    if |b| > 0 {
      var b' := b[..|b| - 1];
      assert (a + b)[..|a + b| - 1] == a + b';
      SummaryBodyAppend(tasks, a, b');
    } else {
      assert a + b == a;
    }
  }

  /** Every task of the plan has its lines in the summary body, in stored order. */
  lemma SummaryBodySplit(tasks: map<string, Task>, order: seq<string>, k: nat)
    requires k < |order| && order[k] in tasks
    ensures SummaryBody(tasks, order)
         == SummaryBody(tasks, order[..k]) + TaskLines(tasks[order[k]]) + SummaryBody(tasks, order[k + 1..])
  {
    assert order == order[..k + 1] + order[k + 1..];
    SummaryBodyAppend(tasks, order[..k + 1], order[k + 1..]);
    assert order[..k + 1][..k] == order[..k];
  }

  /** The summary is "No plan active." exactly when there are no tasks, and
      opens with the header otherwise. */
  lemma PlanSummaryShape(tasks: map<string, Task>, order: seq<string>)
    ensures tasks == map[] <==> PlanSummary(tasks, order) == NoPlan
    ensures tasks != map[] ==> SummaryHeader <= PlanSummary(tasks, order)
  {
    if tasks != map[] {
      assert PlanSummary(tasks, order)[0] == 'C' != NoPlan[0];
    }
  }

  /** The summary of a non-empty plan is the header followed by every task's lines. */
  lemma SummaryListsEveryTask(tasks: map<string, Task>, order: seq<string>, k: nat)
    requires tasks != map[]
    requires k < |order| && order[k] in tasks
    ensures SummaryHeader <= PlanSummary(tasks, order)
    ensures Contains(PlanSummary(tasks, order), TaskLines(tasks[order[k]]))
  {
    SummaryBodySplit(tasks, order, k);
    ContainsAfterHeader(SummaryHeader, SummaryBody(tasks, order[..k]), TaskLines(tasks[order[k]]),
                        SummaryBody(tasks, order[k + 1..]));
  }

  // ---------------------------------------------------------------------------
  // The manager object

  class TaskManager {
    var order: seq<string>
    var tasks: map<string, Task>

    ghost predicate Valid()
      reads this
    {
      WellFormed(Plan(order, tasks))
    }

    constructor ()
      ensures Valid() && order == [] && tasks == map[]
    {
      order := [];
      tasks := map[];
    }

    /** create_plan discards every previous task and stores the new items in order. */
    method CreatePlan(items: seq<TaskItem>)
      modifies this
      ensures Valid()
      ensures Plan(order, tasks) == BuildPlan(items)
      ensures forall id :: id in tasks <==> Declares(items, id)
    {
      tasks := map[];
      order := [];
      var i := 0;
      while i < |items|
        invariant 0 <= i <= |items|
        invariant Plan(order, tasks) == BuildPlan(items[..i])
      {
        var task := NewTask(items[i]);
        if task.id !in tasks {
          order := order + [task.id];
        }
        tasks := tasks[task.id := task];
        assert items[..i + 1][..i] == items[..i];
        i := i + 1;
      }
      assert items[..i] == items;
      BuildPlanKeys(items);
    }

    /** get_task. */
    function GetTask(id: string): (r: Option<Task>)
      reads this
      ensures r.Some? <==> id in tasks
      ensures r.Some? ==> r.value == tasks[id]
    {
      if id in tasks then Some(tasks[id]) else None
    }

    /** get_next_task: the first task in insertion order that is pending and
        whose every dependency exists and is completed; None when there is none. */
    method GetNextTask() returns (r: Option<Task>)
      requires Valid()
      ensures r == NextReady(tasks, order)
    {
      var i := 0;
      while i < |order|
        invariant 0 <= i <= |order|
        invariant NextReady(tasks, order) == NextReady(tasks, order[i..])
      {
        var task := tasks[order[i]];
        if task.status == Pending {
          var met := AllDependenciesCompleted(task);
          if met {
            assert order[i..][0] == order[i];
            return Some(task);
          }
        }
        assert order[i..][1..] == order[i + 1..];
        i := i + 1;
      }
      return None;
    }

    /** The `all(...)` test of get_next_task: every dependency exists and is completed. */
    method AllDependenciesCompleted(task: Task) returns (met: bool)
      ensures met == DependenciesMet(tasks, task)
    {
      var j := 0;
      while j < |task.dependencies|
        invariant 0 <= j <= |task.dependencies|
        invariant forall k :: 0 <= k < j ==>
          task.dependencies[k] in tasks && tasks[task.dependencies[k]].status == Completed
      {
        var dep := GetTask(task.dependencies[j]);
        if dep.None? || dep.value.status != Completed {
          return false;
        }
        j := j + 1;
      }
      return true;
    }

    /** update_task: an unknown id fails with "Task <id> not found." and changes
        nothing; otherwise only that task changes, as Updated says. */
    method UpdateTask(id: string, status: TaskStatus, result: Option<string>, error: Option<string>)
      returns (failure: Option<string>)
      requires Valid()
      modifies this
      ensures Valid()
      ensures order == old(order)
      ensures id !in old(tasks) ==> failure == Some("Task " + id + " not found.") && tasks == old(tasks)
      ensures id in old(tasks) ==> failure == None && tasks == old(tasks)[id := Updated(old(tasks)[id], status, result, error)]
    {
      var task := GetTask(id);
      if task.None? {
        return Some("Task " + id + " not found.");
      }
      tasks := tasks[id := Updated(task.value, status, result, error)];
      failure := None;
    }

    /** get_plan_summary. */
    method GetPlanSummary() returns (summary: string)
      ensures summary == PlanSummary(tasks, order)
    {
      if tasks == map[] {
        return NoPlan;
      }
      var body := "";
      var i := 0;
      while i < |order|
        invariant 0 <= i <= |order|
        invariant body == SummaryBody(tasks, order[..i])
      {
        SummaryBodyStep(tasks, order, i);
        var id := order[i];
        if id in tasks {
          body := body + TaskLines(tasks[id]);
        }
        i := i + 1;
      }
      assert order[..i] == order;
      summary := SummaryHeader + body;
    }
  }
}
