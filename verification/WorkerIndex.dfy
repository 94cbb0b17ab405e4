/** Finding a worker's workflows through the field index
    (pkg/controllers/manager.go:168-186, server/kubernetes_api_workflow.go:30-46). */
module WorkerIndex {
  import opened Types
  import opened KubeStatus

  predicate NonTerminal(st: Status) {
    st.state == Some(Running) || st.state == Some(Pending)
  }

  /** WorkflowWorkerNonTerminalStateIndexFunc: the index keys of an object. */
  method IndexKeys(st: Status) returns (keys: seq<string>)
    ensures forall w :: w in keys <==>
              w != "" && NonTerminal(st) && exists i :: 0 <= i < |st.tasks| && st.tasks[i].workerAddr == w
  {
    keys := [];
    if !NonTerminal(st) {
      return;
    }
    var i := 0;
    while i < |st.tasks|
      invariant 0 <= i <= |st.tasks|
      invariant forall w :: w in keys <==> w != "" && exists n :: 0 <= n < i && st.tasks[n].workerAddr == w
    {
      if st.tasks[i].workerAddr != "" {
        keys := keys + [st.tasks[i].workerAddr];
      }
      i := i + 1;
    }
  }

  /** The task the listing looks at: the current action's, or the first when there is none. */
  predicate SelectedFor(st: Status, worker: string) {
    st.tasks != [] && Info(st.tasks).taskIndex < |st.tasks| && st.tasks[Info(st.tasks).taskIndex].workerAddr == worker
  }

  lemma TaskIndexInRange(tasks: seq<Task>)
    requires tasks != []
    ensures Info(tasks).taskIndex < |tasks|
  {
  }

  /** What a worker is to be given, without any index. */
  predicate Assigned(st: Status, worker: string) {
    NonTerminal(st) && SelectedFor(st, worker)
  }

  /** getCurrentAssignedNonTerminalWorkflowsForWorker: the objects the index has under the worker,
      filtered by the task the scan selects.  For a worker id that is not empty this is exactly a full
      scan of the store. */
  method ListForWorker(items: map<string, Status>, worker: string) returns (ids: set<string>)
    requires worker != ""
    ensures ids == set id | id in items && Assigned(items[id], worker)
  {
    ids := {};
    var left := items.Keys;
    while left != {}
      invariant left <= items.Keys
      invariant ids == set id | id in items && id !in left && Assigned(items[id], worker)
      decreases left
    {
      var id :| id in left;
      left := left - {id};
      var keys := IndexKeys(items[id]);
      if worker in keys {
        var info := GetTaskActionInfo(items[id].tasks);
        TaskIndexInRange(items[id].tasks);
        if items[id].tasks[info.taskIndex].workerAddr == worker {
          ids := ids + {id};
        }
      }
    }
  }

  /** A worker that is given a workflow with an action left owns the task of its current action; and
      no workflow is given to two worker ids. */
  lemma AssignedIsExclusive(st: Status, w1: string, w2: string)
    requires Assigned(st, w1)
    ensures Assigned(st, w2) <==> w1 == w2
    ensures Done(st.tasks) < Total(st.tasks) ==> st.tasks[Coord(st.tasks, Done(st.tasks)).0].workerAddr == w1
  {
  }
}
