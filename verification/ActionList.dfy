/** From a template to the flat action list, on both backends
    (db/workflow.go:75-190, pkg/convert/workflow.go:80-119). */
module ActionList {
  import opened Nested
  import opened Types
  import opened Validator
  import opened Rendering
  import opened Sorting
  import KS = KubeStatus
  import Controller

  const NIL_UUID := "00000000-0000-0000-0000-000000000000"

  // ---------------------------------------------------------------- Postgres

  /** The list entry for an action: its fields, the environment of the task overridden by its own,
      and the merged volumes. */
  ghost predicate Built(task: TemplateTask, ac: TemplateAction, workerId: string, out: WorkflowAction) {
    && out.taskName == task.name && out.workerId == workerId
    && out.name == ac.name && out.image == ac.image && out.timeout == ac.timeout && out.command == ac.command
    && out.onTimeout == ac.onTimeout && out.onFailure == ac.onFailure && out.pid == ac.pid
    && IsRendering(out.environment, task.environment + ac.environment, "=")
    && IsRendering(out.volumes, MergedVolumes(task.volumes, ac.volumes), ":")
  }

  /** The worker ids of the first `n` tasks are all known. */
  predicate Resolved(tasks: seq<TemplateTask>, n: nat, resolve: string -> Option<string>)
    requires n <= |tasks|
  {
    forall i :: 0 <= i < n ==> resolve(tasks[i].workerAddr).Some?
  }

  /** The list holds the actions in task-then-action order, up to flat position `n`. */
  ghost predicate BuiltUpTo(tasks: seq<TemplateTask>, resolve: string -> Option<string>, actions: seq<WorkflowAction>,
                            n: nat) {
    && |actions| == n <= Sum(TemplateLens(tasks))
    && (forall k :: 0 <= k < n ==> BuiltAt(tasks, resolve, actions[k], k))
  }

  ghost predicate BuiltAt(tasks: seq<TemplateTask>, resolve: string -> Option<string>, action: WorkflowAction, k: nat)
    requires k < Sum(TemplateLens(tasks))
  {
    var c := Locate(TemplateLens(tasks), k);
    resolve(tasks[c.0].workerAddr).Some? &&
    Built(tasks[c.0], tasks[c.0].actions[c.1], resolve(tasks[c.0].workerAddr).value, action)
  }

  predicate WorkerOf(tasks: seq<TemplateTask>, resolve: string -> Option<string>, i: nat, w: string)
    requires i < |tasks|
  {
    resolve(tasks[i].workerAddr) == Some(w)
  }

  /** The worker map of the first `n` tasks: every worker id, except that the nil id gets in only
      after another one. */
  ghost predicate MapUpTo(tasks: seq<TemplateTask>, resolve: string -> Option<string>, members: set<string>, n: nat)
    requires n <= |tasks|
  {
    && (forall w :: w != NIL_UUID ==> (w in members <==> exists i :: 0 <= i < n && WorkerOf(tasks, resolve, i, w)))
    && (NIL_UUID in members <==>
        exists i :: 1 <= i < n && WorkerOf(tasks, resolve, i, NIL_UUID) && !WorkerOf(tasks, resolve, i - 1, NIL_UUID))
  }

  /** The inner loop: one list entry. */
  method BuildAction(task: TemplateTask, ac: TemplateAction, taskEnvs: map<string, string>,
                     taskVolumes: map<string, string>, workerId: string) returns (action: WorkflowAction)
    requires taskEnvs == task.environment && taskVolumes == VolumeMap(map[], task.volumes)
    ensures Built(task, ac, workerId, action)
  {
    var acenvs := CopyOver(map[], taskEnvs);
    assert acenvs == taskEnvs;
    acenvs := CopyOver(acenvs, ac.environment);
    var envs := Render(acenvs, "=");
    var volumes := CopyOver(map[], taskVolumes);
    assert volumes == taskVolumes;
    volumes := AddVolumes(volumes, ac.volumes);
    var lines := Render(volumes, ":");
    action := WorkflowAction(task.name, workerId, ac.name, ac.image, ac.timeout, ac.command,
                             ac.onTimeout, ac.onFailure, envs, lines, ac.pid);
  }

  lemma BuiltAppend(tasks: seq<TemplateTask>, resolve: string -> Option<string>, actions: seq<WorkflowAction>,
                    ti: nat, j: nat, workerId: string, action: WorkflowAction)
    requires ti < |tasks| && j < |tasks[ti].actions| && WorkerOf(tasks, resolve, ti, workerId)
    requires BuiltUpTo(tasks, resolve, actions, Offset(TemplateLens(tasks), ti) + j)
    requires Built(tasks[ti], tasks[ti].actions[j], workerId, action)
    ensures BuiltUpTo(tasks, resolve, actions + [action], Offset(TemplateLens(tasks), ti) + j + 1)
  {
    LocateUnique(TemplateLens(tasks), ti, j);
    assert BuiltAt(tasks, resolve, action, Offset(TemplateLens(tasks), ti) + j);
  }

  /** The loop over the actions of task `ti`. */
  method BuildTask(tasks: seq<TemplateTask>, resolve: string -> Option<string>, ti: nat, workerId: string,
                   actions0: seq<WorkflowAction>) returns (actions: seq<WorkflowAction>)
    requires ti < |tasks| && WorkerOf(tasks, resolve, ti, workerId)
    requires BuiltUpTo(tasks, resolve, actions0, Offset(TemplateLens(tasks), ti))
    ensures BuiltUpTo(tasks, resolve, actions, Offset(TemplateLens(tasks), ti + 1))
  {
    var task := tasks[ti];
    var taskVolumes := AddVolumes(map[], task.volumes);
    var taskEnvs := CopyOver(map[], task.environment);
    assert taskEnvs == task.environment;
    OffsetStep(TemplateLens(tasks), ti);
    actions := actions0;
    var j := 0;
    while j < |task.actions|
      invariant 0 <= j <= |task.actions|
      invariant BuiltUpTo(tasks, resolve, actions, Offset(TemplateLens(tasks), ti) + j)
    {
      var action := BuildAction(task, task.actions[j], taskEnvs, taskVolumes, workerId);
      BuiltAppend(tasks, resolve, actions, ti, j, workerId, action);
      actions := actions + [action];
      j := j + 1;
    }
  }

  /** insertIntoWfWorkerTable, called when the worker differs from the previous task's. */
  method AddToMap(tasks: seq<TemplateTask>, resolve: string -> Option<string>, members0: set<string>, ghost n: nat,
                  uniqueWorker: string, worker: string) returns (members: set<string>)
    requires n < |tasks| && MapUpTo(tasks, resolve, members0, n) && WorkerOf(tasks, resolve, n, worker)
    requires if n == 0 then uniqueWorker == NIL_UUID else WorkerOf(tasks, resolve, n - 1, uniqueWorker)
    ensures MapUpTo(tasks, resolve, members, n + 1)
  {
    members := members0;
    if uniqueWorker != worker {
      members := members + {worker};
    }
    MapStep(tasks, resolve, members0, n, uniqueWorker, worker);
  }

  /** The variables of the loop over the tasks, before task `n`. */
  ghost predicate ListState(tasks: seq<TemplateTask>, resolve: string -> Option<string>, n: nat,
                            actions: seq<WorkflowAction>, members: set<string>, uniqueWorker: string)
  {
    && n <= |tasks| && Resolved(tasks, n, resolve)
    && BuiltUpTo(tasks, resolve, actions, Offset(TemplateLens(tasks), n))
    && MapUpTo(tasks, resolve, members, n)
    && if n == 0 then uniqueWorker == NIL_UUID else WorkerOf(tasks, resolve, n - 1, uniqueWorker)
  }

  method AddTask(tasks: seq<TemplateTask>, resolve: string -> Option<string>, i: nat, worker: string,
                 actions0: seq<WorkflowAction>, members0: set<string>, uniqueWorker: string)
      returns (actions: seq<WorkflowAction>, members: set<string>)
    requires i < |tasks| && resolve(tasks[i].workerAddr) == Some(worker)
    requires ListState(tasks, resolve, i, actions0, members0, uniqueWorker)
    ensures ListState(tasks, resolve, i + 1, actions, members, worker)
  {
    members := AddToMap(tasks, resolve, members0, i, uniqueWorker, worker);
    actions := BuildTask(tasks, resolve, i, worker, actions0);
  }

  /** The loop over the tasks. */
  method BuildList(tasks: seq<TemplateTask>, resolve: string -> Option<string>)
      returns (known: bool, actions: seq<WorkflowAction>, members: set<string>)
    ensures known <==> Resolved(tasks, |tasks|, resolve)
    ensures known ==> BuiltUpTo(tasks, resolve, actions, Sum(TemplateLens(tasks)))
    ensures known ==> MapUpTo(tasks, resolve, members, |tasks|)
  {
    OffsetWhole(TemplateLens(tasks));
    known, actions, members := true, [], {};
    var uniqueWorker := NIL_UUID;
    var i := 0;
    while i < |tasks|
      invariant 0 <= i <= |tasks| && ListState(tasks, resolve, i, actions, members, uniqueWorker)
    {
      var worker := resolve(tasks[i].workerAddr);
      if worker.None? {
        known := false;
        return;
      }
      actions, members := AddTask(tasks, resolve, i, worker.value, actions, members, uniqueWorker);
      uniqueWorker := worker.value;
      i := i + 1;
    }
  }

  /** insertActionList.  `resolve` looks a worker address up; an invalid template or an unknown worker
      aborts the transaction. */
  method InsertActionList(t: Template, validImage: string -> bool, resolve: string -> Option<string>)
      returns (result: Option<(seq<WorkflowAction>, set<string>)>)
    ensures result.Some? <==> ValidTemplate(t, validImage) && Resolved(t.tasks, |t.tasks|, resolve)
    ensures result.Some? ==>
              && BuiltUpTo(t.tasks, resolve, result.value.0, Sum(TemplateLens(t.tasks)))
              && MapUpTo(t.tasks, resolve, result.value.1, |t.tasks|)
  {
    var err := Validate(t, validImage);
    if err.Some? {
      return None;
    }
    var known, actions, members := BuildList(t.tasks, resolve);
    result := if known then Some((actions, members)) else None;
  }

  lemma MapStep(tasks: seq<TemplateTask>, resolve: string -> Option<string>, members: set<string>, n: nat, prev: string,
                w: string)
    requires n < |tasks| && MapUpTo(tasks, resolve, members, n) && WorkerOf(tasks, resolve, n, w)
    requires if n == 0 then prev == NIL_UUID else WorkerOf(tasks, resolve, n - 1, prev)
    ensures MapUpTo(tasks, resolve, if prev != w then members + {w} else members, n + 1)
  {
    var members' := if prev != w then members + {w} else members;
    forall x | x != NIL_UUID
      ensures x in members' <==> exists i :: 0 <= i < n + 1 && WorkerOf(tasks, resolve, i, x)
    {
      if x == w {
        assert WorkerOf(tasks, resolve, n, x);
      }
    }
    if NIL_UUID in members' && NIL_UUID !in members {
      assert WorkerOf(tasks, resolve, n, NIL_UUID) && !WorkerOf(tasks, resolve, n - 1, NIL_UUID);
    }
  }

  /** A template all of whose tasks belong to the worker with the nil id leaves the worker map empty. */
  lemma NilWorkerIsNotMapped(tasks: seq<TemplateTask>, resolve: string -> Option<string>, members: set<string>)
    requires MapUpTo(tasks, resolve, members, |tasks|)
    requires forall i :: 0 <= i < |tasks| ==>
               resolve(tasks[i].workerAddr) == Some("00000000-0000-0000-0000-000000000000")
    ensures members == {}
  {
    forall w
      ensures w !in members
    {
    }
  }

  /** What the protocol needs of the list: the names of a valid template, hence distinct pairs; and
      every owner with an id other than nil is in the worker map. */
  lemma ListIsWellNamed(t: Template, validImage: string -> bool, resolve: string -> Option<string>,
                        actions: seq<WorkflowAction>, members: set<string>)
    requires ValidTemplate(t, validImage)
    requires BuiltUpTo(t.tasks, resolve, actions, Sum(TemplateLens(t.tasks)))
             && MapUpTo(t.tasks, resolve, members, |t.tasks|)
    ensures Flattens(t.tasks, actions) && WellNamed(actions)
    ensures forall k :: 0 <= k < |actions| && actions[k].workerId != NIL_UUID ==> actions[k].workerId in members
  {
    forall k | 0 <= k < |actions|
      ensures actions[k].taskName == t.tasks[Locate(TemplateLens(t.tasks), k).0].name
      ensures actions[k].name ==
                t.tasks[Locate(TemplateLens(t.tasks), k).0].actions[Locate(TemplateLens(t.tasks), k).1].name
      ensures WorkerOf(t.tasks, resolve, Locate(TemplateLens(t.tasks), k).0, actions[k].workerId)
    {
      assert BuiltAt(t.tasks, resolve, actions[k], k);
    }
    ValidIsWellNamed(t, validImage, actions);
  }

  // ---------------------------------------------------------------- Kubernetes

  /** The list entry for an action of a status; the volumes are concatenated, not merged. */
  ghost predicate Converted(task: KS.Task, ac: KS.Action, out: WorkflowAction) {
    && out.taskName == task.name && out.workerId == task.workerAddr
    && out.name == ac.name && out.image == ac.image && out.timeout == ac.timeout && out.command == ac.command
    && out.onTimeout == [] && out.onFailure == [] && out.pid == ac.pid
    && out.volumes == task.volumes + ac.volumes
    && IsSortedRendering(out.environment, task.environment + ac.environment, "=")
  }

  ghost predicate ConvertedAt(tasks: seq<KS.Task>, action: WorkflowAction, k: nat)
    requires k < KS.Total(tasks)
  {
    Converted(tasks[KS.Coord(tasks, k).0], KS.At(tasks, k), action)
  }

  ghost predicate ConvertedUpTo(tasks: seq<KS.Task>, actions: seq<WorkflowAction>, n: nat) {
    |actions| == n <= KS.Total(tasks) && forall k :: 0 <= k < n ==> ConvertedAt(tasks, actions[k], k)
  }

  lemma ConvertedAppend(tasks: seq<KS.Task>, actions: seq<WorkflowAction>, i: nat, j: nat, action: WorkflowAction)
    requires i < |tasks| && j < |tasks[i].actions|
    requires ConvertedUpTo(tasks, actions, Offset(KS.Lens(tasks), i) + j)
    requires Converted(tasks[i], tasks[i].actions[j], action)
    ensures ConvertedUpTo(tasks, actions + [action], Offset(KS.Lens(tasks), i) + j + 1)
  {
    LocateUnique(KS.Lens(tasks), i, j);
    assert ConvertedAt(tasks, action, Offset(KS.Lens(tasks), i) + j);
  }

  /** WorkflowActionListCRDToProto. */
  method FromStatus(tasks: seq<KS.Task>) returns (actions: seq<WorkflowAction>)
    ensures ConvertedUpTo(tasks, actions, KS.Total(tasks))
  {
    var lens := KS.Lens(tasks);
    OffsetWhole(lens);
    actions := [];
    var i := 0;
    while i < |tasks|
      invariant 0 <= i <= |tasks| && ConvertedUpTo(tasks, actions, Offset(lens, i))
    {
      OffsetStep(lens, i);
      var task := tasks[i];
      var j := 0;
      while j < |task.actions|
        invariant 0 <= j <= |task.actions| && ConvertedUpTo(tasks, actions, Offset(lens, i) + j)
      {
        var ac := task.actions[j];
        var merged := CopyOver(map[], task.environment);
        assert merged == task.environment;
        merged := CopyOver(merged, ac.environment);
        var lines := Render(merged, "=");
        SortStringsSorted(lines);
        var action := WorkflowAction(task.name, task.workerAddr, ac.name, ac.image, ac.timeout, ac.command, [], [],
                                     SortStrings(lines), task.volumes + ac.volumes, ac.pid);
        ConvertedAppend(tasks, actions, i, j, action);
        actions := actions + [action];
        j := j + 1;
      }
      i := i + 1;
    }
  }

  /** The Kubernetes backend always serves the same list for a status, although maps are visited in any
      order. */
  lemma ListIsDetermined(tasks: seq<KS.Task>, actions: seq<WorkflowAction>, actions': seq<WorkflowAction>)
    requires ConvertedUpTo(tasks, actions, KS.Total(tasks)) && ConvertedUpTo(tasks, actions', KS.Total(tasks))
    ensures actions == actions'
  {
    forall k | 0 <= k < |actions|
      ensures actions[k] == actions'[k]
    {
      assert ConvertedAt(tasks, actions[k], k) && ConvertedAt(tasks, actions'[k], k);
      SortedRenderingUnique(actions[k].environment, actions'[k].environment,
                            tasks[KS.Coord(tasks, k).0].environment + KS.At(tasks, k).environment, "=");
    }
  }

  /** Both backends serve, for one template, its actions in order with the template's fields.  The
      environment lines are the same up to order; the volumes are the merged ones on Postgres and all of
      the task's and the action's on Kubernetes, where the worker is an address and not an id and the
      handlers for timeout and failure are dropped. */
  lemma ListsMatch(t: Template, resolve: string -> Option<string>, pg: seq<WorkflowAction>, kube: seq<WorkflowAction>,
                   k: nat)
    requires BuiltUpTo(t.tasks, resolve, pg, Sum(TemplateLens(t.tasks)))
    requires ConvertedUpTo(Controller.NewTasks(t.tasks), kube, KS.Total(Controller.NewTasks(t.tasks)))
    requires k < |pg|
    ensures |pg| == |kube| == Sum(TemplateLens(t.tasks))
    ensures var c := Locate(TemplateLens(t.tasks), k);
            var task, ac := t.tasks[c.0], t.tasks[c.0].actions[c.1];
            && pg[k].taskName == kube[k].taskName == task.name && pg[k].name == kube[k].name == ac.name
            && pg[k].image == kube[k].image == ac.image && pg[k].timeout == kube[k].timeout == ac.timeout
            && pg[k].command == kube[k].command == ac.command && pg[k].pid == kube[k].pid == ac.pid
            && resolve(task.workerAddr) == Some(pg[k].workerId) && kube[k].workerId == task.workerAddr
            && pg[k].onTimeout == ac.onTimeout && pg[k].onFailure == ac.onFailure
            && kube[k].onTimeout == [] && kube[k].onFailure == []
            && kube[k].volumes == task.volumes + ac.volumes
    ensures multiset(pg[k].environment) == multiset(kube[k].environment)
    ensures var c := Locate(TemplateLens(t.tasks), k);
            var task, ac := t.tasks[c.0], t.tasks[c.0].actions[c.1];
            && (forall line :: line in pg[k].environment <==> IsSetting(task, ac, line))
            && (forall line :: line in pg[k].volumes <==>
                  exists vol :: Wins(task.volumes, ac.volumes, vol) && line == Emitted(vol))
  {
    var tasks := Controller.NewTasks(t.tasks);
    Controller.NewTasksShape(t.tasks);
    assert BuiltAt(t.tasks, resolve, pg[k], k) && ConvertedAt(tasks, kube[k], k);
    var c := Locate(TemplateLens(t.tasks), k);
    assert KS.Coord(tasks, k) == c;
    var task, ac := t.tasks[c.0], t.tasks[c.0].actions[c.1];
    EnvironmentsMatch(task, ac, pg[k].environment, kube[k].environment);
    forall line
      ensures line in pg[k].volumes <==> exists vol :: Wins(task.volumes, ac.volumes, vol) && line == Emitted(vol)
    {
      MergedVolumesExact(task.volumes, ac.volumes, pg[k].volumes, line);
    }
  }

  /** The line sets a variable of the action, or one of its task that the action does not set. */
  ghost predicate IsSetting(task: TemplateTask, ac: TemplateAction, line: string) {
    || (exists key :: key in ac.environment && line == key + "=" + ac.environment[key])
    || (exists key :: key in task.environment && key !in ac.environment && line == key + "=" + task.environment[key])
  }

  lemma EnvironmentsMatch(task: TemplateTask, ac: TemplateAction, pg: seq<string>, kube: seq<string>)
    requires IsRendering(pg, task.environment + ac.environment, "=")
    requires IsSortedRendering(kube, task.environment + ac.environment, "=")
    ensures multiset(pg) == multiset(kube)
    ensures forall line :: line in pg <==> IsSetting(task, ac, line)
  {
    var m := task.environment + ac.environment;
    var unsorted :| IsRendering(unsorted, m, "=") && multiset(unsorted) == multiset(kube);
    RenderingsMatch(pg, unsorted, m, "=");
    forall line
      ensures line in pg <==> IsSetting(task, ac, line)
    {
      RenderingExact(pg, m, "=", line);
      if key :| key in m && line == key + "=" + m[key] {
        assert key in ac.environment || (key in task.environment && key !in ac.environment);
      }
      if key :| key in ac.environment && line == key + "=" + ac.environment[key] {
        assert key in m;
      }
      if key :| key in task.environment && key !in ac.environment && line == key + "=" + task.environment[key] {
        assert key in m;
      }
    }
  }
}
