/** The status of a Kubernetes Workflow object and the scan for its current action
    (pkg/apis/core/v1alpha1/workflow_types.go, workflow_methods.go). */
module KubeStatus {
  import opened Nested
  import opened Types

  datatype Action = Action(
    name: string, image: string, timeout: int, command: seq<string>, volumes: seq<string>, pid: string,
    environment: map<string, string>, status: State, startedAt: Option<int>, seconds: int, message: string)

  datatype Task = Task(
    name: string, workerAddr: string, actions: seq<Action>, volumes: seq<string>, environment: map<string, string>)

  /** `state` is `None` for the empty string of an object no controller has seen yet. */
  datatype Status = Status(state: Option<State>, globalTimeout: int, tasks: seq<Task>)

  function Lens(tasks: seq<Task>): (lens: seq<nat>)
    ensures |lens| == |tasks|
    ensures forall i :: 0 <= i < |tasks| ==> lens[i] == |tasks[i].actions|
  {
    seq(|tasks|, i requires 0 <= i < |tasks| => |tasks[i].actions|)
  }

  function Total(tasks: seq<Task>): nat {
    Sum(Lens(tasks))
  }

  /** Flat position to coordinates. */
  function Coord(tasks: seq<Task>, k: nat): (c: (nat, nat))
    requires k < Total(tasks)
    ensures c.0 < |tasks| && c.1 < |tasks[c.0].actions|
    ensures Offset(Lens(tasks), c.0) + c.1 == k
  {
    Locate(Lens(tasks), k)
  }

  /** The action at flat position `k`. */
  function At(tasks: seq<Task>, k: nat): Action
    requires k < Total(tasks)
  {
    tasks[Coord(tasks, k).0].actions[Coord(tasks, k).1]
  }

  /** The number of leading SUCCESS actions from flat position `k` on, counted from 0. */
  function FirstOpenFrom(tasks: seq<Task>, k: nat): (r: nat)
    requires k <= Total(tasks)
    ensures k <= r <= Total(tasks)
    ensures forall j :: k <= j < r ==> At(tasks, j).status == Success
    ensures r < Total(tasks) ==> At(tasks, r).status != Success
    decreases Total(tasks) - k
  {
    if k == Total(tasks) || At(tasks, k).status != Success then k else FirstOpenFrom(tasks, k + 1)
  }

  /** The first flat position that is not SUCCESS, or the total. */
  function Done(tasks: seq<Task>): (k: nat)
    ensures k <= Total(tasks)
    ensures forall j :: 0 <= j < k ==> At(tasks, j).status == Success
    ensures k < Total(tasks) ==> At(tasks, k).status != Success
  {
    FirstOpenFrom(tasks, 0)
  }

  /** `Done` is the only such position. */
  lemma DoneUnique(tasks: seq<Task>, k: nat)
    requires k <= Total(tasks)
    requires forall j :: 0 <= j < k ==> At(tasks, j).status == Success
    requires k < Total(tasks) ==> At(tasks, k).status != Success
    ensures Done(tasks) == k
  {
  }

  datatype TaskInfo = TaskInfo(
    worker: string, task: string, taskIndex: nat, action: string, actionIndex: nat,
    actionState: Option<State>, total: nat)

  /** What the scan reports, in terms of the flat list: the first action that is not SUCCESS. */
  function Info(tasks: seq<Task>): TaskInfo {
    var k := Done(tasks);
    if k == Total(tasks) then TaskInfo("", "", 0, "", k, None, k)
    else
      var c := Coord(tasks, k);
      var t := tasks[c.0];
      TaskInfo(t.workerAddr, t.name, c.0, t.actions[c.1].name, k, Some(t.actions[c.1].status), Total(tasks))
  }

  /** The action at coordinates `(ti, ai)`, reached with everything before it SUCCESS: the scan moves
      on if it is SUCCESS too, and has found the current action if not. */
  lemma ScanOne(tasks: seq<Task>, ti: nat, ai: nat, n: nat)
    requires ti < |tasks| && ai < |tasks[ti].actions| && n == Offset(Lens(tasks), ti) + ai
    requires ScanState(tasks, n, false, -1, n, 0)
    ensures if tasks[ti].actions[ai].status == Success then ScanState(tasks, n + 1, false, -1, n + 1, 0)
            else Offset(Lens(tasks), ti + 1) <= Total(tasks)
                 && ScanState(tasks, Offset(Lens(tasks), ti + 1), true, ti, n, ai)
  {
    LocateUnique(Lens(tasks), ti, ai);
    OffsetMonotone(Lens(tasks), ti + 1, |tasks|);
    OffsetWhole(Lens(tasks));
  }

  /** The scan of one task, which stops at its first action that is not SUCCESS. */
  method ScanTask(tasks: seq<Task>, ti: nat, actionIndex0: nat)
      returns (found: bool, taskIndex: int, actionIndex: nat, actionTaskIndex: nat)
    requires ti < |tasks| && actionIndex0 == Offset(Lens(tasks), ti)
    requires ScanState(tasks, actionIndex0, false, -1, actionIndex0, 0)
    ensures ScanState(tasks, Offset(Lens(tasks), ti + 1), found, taskIndex, actionIndex, actionTaskIndex)
    ensures !found ==> actionTaskIndex == 0
  {
    OffsetStep(Lens(tasks), ti);
    found, taskIndex, actionIndex, actionTaskIndex := false, -1, actionIndex0, 0;
    var ai := 0;
    while ai < |tasks[ti].actions|
      invariant 0 <= ai <= |tasks[ti].actions| && actionIndex == actionIndex0 + ai
      invariant !found && taskIndex == -1 && actionTaskIndex == 0
      invariant ScanState(tasks, actionIndex, false, -1, actionIndex, 0)
    {
      ScanOne(tasks, ti, ai, actionIndex);
      if tasks[ti].actions[ai].status != Success {
        return true, ti, actionIndex, ai;
      }
      actionIndex := actionIndex + 1;
      ai := ai + 1;
    }
  }

  /** getTaskActionInfo. */
  method GetTaskActionInfo(tasks: seq<Task>) returns (info: TaskInfo)
    ensures info == Info(tasks)
  {
    var found, taskIndex, actionIndex, actionTaskIndex, actionCount := false, -1, 0, 0, 0;
    OffsetWhole(Lens(tasks));
    var ti := 0;
    while ti < |tasks|
      invariant 0 <= ti <= |tasks| && actionCount == Offset(Lens(tasks), ti)
      invariant ScanState(tasks, Offset(Lens(tasks), ti), found, taskIndex, actionIndex, actionTaskIndex)
      invariant !found ==> actionTaskIndex == 0
    {
      OffsetStep(Lens(tasks), ti);
      OffsetMonotone(Lens(tasks), ti + 1, |tasks|);
      actionCount := actionCount + |tasks[ti].actions|;
      if !found {
        found, taskIndex, actionIndex, actionTaskIndex := ScanTask(tasks, ti, actionIndex);
      }
      ti := ti + 1;
    }
    DoneUnique(tasks, actionIndex);
    info := TaskInfo("", "", 0, "", actionIndex, None, actionCount);
    if taskIndex >= 0 {
      info := info.(worker := tasks[taskIndex].workerAddr, task := tasks[taskIndex].name, taskIndex := taskIndex);
    }
    if taskIndex >= 0 && actionIndex >= 0 {
      info := info.(action := tasks[taskIndex].actions[actionTaskIndex].name,
                    actionState := Some(tasks[taskIndex].actions[actionTaskIndex].status));
    }
  }

  /** The scan's variables after the flat positions below `n`. */
  ghost predicate ScanState(tasks: seq<Task>, n: nat, found: bool, taskIndex: int, actionIndex: int,
                            actionTaskIndex: int) {
    && n <= Total(tasks)
    && 0 <= actionIndex <= Total(tasks)
    && (forall j :: 0 <= j < actionIndex ==> At(tasks, j).status == Success)
    && if found then
         && actionIndex < Total(tasks) && At(tasks, actionIndex).status != Success
         && 0 <= taskIndex && 0 <= actionTaskIndex && Coord(tasks, actionIndex) == (taskIndex, actionTaskIndex)
       else
         taskIndex == -1 && actionIndex == n
  }

  /** The scan against the flat list: index, identity of the entry, total, and completion. */
  lemma ScanAgreesWithFlat(tasks: seq<Task>)
    ensures var info := Info(tasks);
            && info.total == Total(tasks)
            && (info.actionIndex == info.total <==>
                forall k :: 0 <= k < Total(tasks) ==> At(tasks, k).status == Success)
            && (info.actionIndex < info.total ==>
                  && (forall j :: 0 <= j < info.actionIndex ==> At(tasks, j).status == Success)
                  && info.actionState == Some(At(tasks, info.actionIndex).status) != Some(Success)
                  && info.action == At(tasks, info.actionIndex).name
                  && info.taskIndex < |tasks|
                  && info.task == tasks[info.taskIndex].name && info.worker == tasks[info.taskIndex].workerAddr
                  && Offset(Lens(tasks), info.taskIndex) <= info.actionIndex < Offset(Lens(tasks), info.taskIndex + 1))
  {
    if Done(tasks) < Total(tasks) {
      OffsetStep(Lens(tasks), Info(tasks).taskIndex);
    }
  }

  // ---------------------------------------------------------------- updating one action

  function Put(tasks: seq<Task>, c: (nat, nat), a: Action): (tasks': seq<Task>)
    requires c.0 < |tasks| && c.1 < |tasks[c.0].actions|
  {
    tasks[c.0 := tasks[c.0].(actions := tasks[c.0].actions[c.1 := a])]
  }

  /** Replacing the action at coordinates `c` replaces exactly one entry of the flat list. */
  lemma PutFlat(tasks: seq<Task>, k: nat, a: Action)
    requires k < Total(tasks)
    ensures var tasks' := Put(tasks, Coord(tasks, k), a);
            && Lens(tasks') == Lens(tasks) && Total(tasks') == Total(tasks)
            && (forall j :: 0 <= j < Total(tasks) ==>
                  Coord(tasks', j) == Coord(tasks, j) && At(tasks', j) == if j == k then a else At(tasks, j))
  {
  }
}
