/** The controller's reconcile pass: it creates the status from a rendered template and times out
    running workflows (pkg/controllers/workflow/controller.go:39-168, pkg/convert/workflow.go:29-60). */
module Controller {
  import opened Nested
  import opened Types
  import opened Validator
  import opened KubeStatus
  import opened KubeServer

  // ---------------------------------------------------------------- creation

  function NewAction(a: TemplateAction): Action {
    Action(a.name, a.image, a.timeout, a.command, a.volumes, a.pid, a.environment, Pending, None, 0, "")
  }

  function NewTask(t: TemplateTask): Task {
    Task(t.name, t.workerAddr,
         seq(|t.actions|, j requires 0 <= j < |t.actions| => NewAction(t.actions[j])),
         t.volumes, t.environment)
  }

  function NewTasks(tasks: seq<TemplateTask>): seq<Task> {
    seq(|tasks|, i requires 0 <= i < |tasks| => NewTask(tasks[i]))
  }

  /** The status of a workflow that has just been created. */
  function Created(t: Template): Status {
    Status(Some(Pending), t.globalTimeout, NewTasks(t.tasks))
  }

  /** The action carries the template action's fields and has not been reported on. */
  predicate CopiesAction(a: TemplateAction, b: Action) {
    && b.name == a.name && b.image == a.image && b.timeout == a.timeout && b.command == a.command
    && b.volumes == a.volumes && b.environment == a.environment && b.pid == a.pid
    && b.status == Pending && b.startedAt == None && b.seconds == 0 && b.message == ""
  }

  /** The status carries every task and action of the template, field by field. */
  predicate Copies(t: Template, st: Status) {
    && st.state == Some(Pending) && st.globalTimeout == t.globalTimeout && |st.tasks| == |t.tasks|
    && (forall i :: 0 <= i < |t.tasks| ==>
          && st.tasks[i].name == t.tasks[i].name && st.tasks[i].workerAddr == t.tasks[i].workerAddr
          && st.tasks[i].volumes == t.tasks[i].volumes && st.tasks[i].environment == t.tasks[i].environment
          && |st.tasks[i].actions| == |t.tasks[i].actions|)
    && (forall i, j :: 0 <= i < |t.tasks| && 0 <= j < |t.tasks[i].actions| ==>
          CopiesAction(t.tasks[i].actions[j], st.tasks[i].actions[j]))
  }

  /** WorkflowYAMLToStatus, with the PENDING state processNewWorkflow then sets. */
  method NewStatus(t: Template) returns (st: Status)
    ensures st == Created(t) && Copies(t, st)
  {
    var tasks: seq<Task> := [];
    var i := 0;
    while i < |t.tasks|
      invariant 0 <= i <= |t.tasks| && tasks == NewTasks(t.tasks[..i])
    {
      var task := t.tasks[i];
      var actions: seq<Action> := [];
      var j := 0;
      while j < |task.actions|
        invariant 0 <= j <= |task.actions|
        invariant actions == seq(j, n requires 0 <= n < j => NewAction(task.actions[n]))
      {
        actions := actions + [NewAction(task.actions[j])];
        j := j + 1;
      }
      var newTask := Task(task.name, task.workerAddr, actions, task.volumes, task.environment);
      assert newTask.actions == NewTask(task).actions;
      assert t.tasks[..i + 1] == t.tasks[..i] + [task];
      tasks := tasks + [newTask];
      assert tasks == NewTasks(t.tasks[..i + 1]);
      i := i + 1;
    }
    assert t.tasks[..|t.tasks|] == t.tasks;
    st := Status(None, t.globalTimeout, tasks);
    st := st.(state := Some(Pending));
  }

  /** A rendered template has passed validation, and every task has a worker address. */
  predicate Rendered(t: Template, validImage: string -> bool) {
    ValidTemplate(t, validImage) && forall i :: 0 <= i < |t.tasks| ==> t.tasks[i].workerAddr != ""
  }

  lemma NewTasksShape(tasks: seq<TemplateTask>)
    ensures Lens(NewTasks(tasks)) == TemplateLens(tasks)
    ensures forall k :: 0 <= k < Total(NewTasks(tasks)) ==>
              At(NewTasks(tasks), k) ==
                  NewAction(tasks[Locate(TemplateLens(tasks), k).0].actions[Locate(TemplateLens(tasks), k).1])
  {
    assert Lens(NewTasks(tasks)) == TemplateLens(tasks);
  }

  // ---------------------------------------------------------------- timeouts

  /** GetStartTime: the start of the first action of the first task. */
  function StartTime(tasks: seq<Task>): Option<int> {
    if |tasks| > 0 && |tasks[0].actions| > 0 then tasks[0].actions[0].startedAt else None
  }

  predicate Expired(a: Action, now: int) {
    a.status == Running && a.startedAt.Some? && now > a.startedAt.value + a.timeout * SECOND
  }

  function Expire(a: Action, now: int): Action {
    if Expired(a, now) then
      a.(status := Timeout, message := "Action timed out", seconds := ElapsedSeconds(a.startedAt.value, now))
    else a
  }

  function ExpireTask(t: Task, n: nat, now: int): Task
    requires n <= |t.actions|
  {
    t.(actions := seq(|t.actions|, j requires 0 <= j < |t.actions| =>
      if j < n then Expire(t.actions[j], now) else t.actions[j]))
  }

  function ExpireTasks(tasks: seq<Task>, n: nat, now: int): seq<Task>
    requires n <= |tasks|
  {
    seq(|tasks|, i requires 0 <= i < |tasks| =>
      if i < n then ExpireTask(tasks[i], |tasks[i].actions|, now) else tasks[i])
  }

  predicate SomeExpired(tasks: seq<Task>, n: nat, now: int)
    requires n <= |tasks|
  {
    exists i, j :: 0 <= i < n && 0 <= j < |tasks[i].actions| && Expired(tasks[i].actions[j], now)
  }

  predicate GloballyExpired(st: Status, now: int) {
    StartTime(st.tasks).Some? && now > StartTime(st.tasks).value + st.globalTimeout * SECOND
  }

  /** The outcome of a pass over a RUNNING workflow with a start time. */
  function TimeoutPass(st: Status, now: int): Status {
    Status(if GloballyExpired(st, now) || SomeExpired(st.tasks, |st.tasks|, now) then Some(Timeout) else st.state,
           st.globalTimeout, ExpireTasks(st.tasks, |st.tasks|, now))
  }

  /** The loop over one task. */
  method ExpireTaskInPlace(wf: Workflow, ti: nat, now: int)
    requires ti < |wf.tasks|
    modifies wf
    ensures wf.globalTimeout == old(wf.globalTimeout)
    ensures wf.tasks == old(wf.tasks)[ti := ExpireTask(old(wf.tasks)[ti], |old(wf.tasks)[ti].actions|, now)]
    ensures var actions := old(wf.tasks)[ti].actions;
            wf.state == if exists j :: 0 <= j < |actions| && Expired(actions[j], now) then Some(Timeout)
                        else old(wf.state)
  {
    var task := wf.tasks[ti];
    assert ExpireTask(task, 0, now).actions == task.actions;
    assert wf.tasks[ti := ExpireTask(task, 0, now)] == wf.tasks;
    var ai := 0;
    while ai < |task.actions|
      invariant 0 <= ai <= |task.actions| && wf.globalTimeout == old(wf.globalTimeout)
      invariant wf.tasks == old(wf.tasks)[ti := ExpireTask(task, ai, now)]
      invariant wf.state == if exists j :: 0 <= j < ai && Expired(task.actions[j], now) then Some(Timeout)
                            else old(wf.state)
    {
      var action := task.actions[ai];
      assert ExpireTask(task, ai + 1, now).actions == ExpireTask(task, ai, now).actions[ai := Expire(action, now)];
      if Expired(action, now) {
        wf.tasks := Put(wf.tasks, (ti, ai), Expire(action, now));
        wf.state := Some(Timeout);
      } else {
        assert ExpireTask(task, ai + 1, now).actions == ExpireTask(task, ai, now).actions;
      }
      assert ExpireTask(task, ai + 1, now) ==
               ExpireTask(task, ai, now).(actions := ExpireTask(task, ai + 1, now).actions);
      ai := ai + 1;
    }
  }

  /** processRunningWorkflow at instant `now`.  Without a start time the pass dereferences nil. */
  method ProcessRunningWorkflow(wf: Workflow, now: int) returns (crashed: bool)
    modifies wf
    ensures crashed <==> StartTime(old(wf.tasks)).None?
    ensures wf.Value() == if crashed then old(wf.Value()) else TimeoutPass(old(wf.Value()), now)
  {
    if StartTime(wf.tasks).None? {
      return true;
    }
    ghost var tasks0 := wf.tasks;
    if now > StartTime(wf.tasks).value + wf.globalTimeout * SECOND {
      wf.state := Some(Timeout);
    }
    var ti := 0;
    while ti < |wf.tasks|
      invariant 0 <= ti <= |wf.tasks| == |tasks0| && wf.globalTimeout == old(wf.globalTimeout)
      invariant wf.tasks == ExpireTasks(tasks0, ti, now)
      invariant wf.state == if GloballyExpired(old(wf.Value()), now) || SomeExpired(tasks0, ti, now)
                then Some(Timeout) else old(wf.state)
    {
      assert wf.tasks[ti] == tasks0[ti];
      ExpireTaskInPlace(wf, ti, now);
      assert wf.tasks == ExpireTasks(tasks0, ti + 1, now);
      assert SomeExpired(tasks0, ti + 1, now) <==>
             SomeExpired(tasks0, ti, now) ||
             (exists j :: 0 <= j < |tasks0[ti].actions| && Expired(tasks0[ti].actions[j], now));
      ti := ti + 1;
    }
    crashed := false;
  }

  /** The pass in terms of the flat list. */
  lemma PassFlat(tasks: seq<Task>, now: int)
    ensures var tasks' := ExpireTasks(tasks, |tasks|, now);
            && Lens(tasks') == Lens(tasks) && Total(tasks') == Total(tasks)
            && (forall k :: 0 <= k < Total(tasks) ==> At(tasks', k) == Expire(At(tasks, k), now))
  {
    var tasks' := ExpireTasks(tasks, |tasks|, now);
    assert Lens(tasks') == Lens(tasks);
    forall k | 0 <= k < Total(tasks)
      ensures At(tasks', k) == Expire(At(tasks, k), now)
    {
      assert Coord(tasks', k) == Coord(tasks, k);
    }
  }

  lemma ExpiredFlat(tasks: seq<Task>, now: int)
    ensures SomeExpired(tasks, |tasks|, now) <==> exists k :: 0 <= k < Total(tasks) && Expired(At(tasks, k), now)
  {
    if SomeExpired(tasks, |tasks|, now) {
      var i, j :| 0 <= i < |tasks| && 0 <= j < |tasks[i].actions| && Expired(tasks[i].actions[j], now);
      LocateUnique(Lens(tasks), i, j);
      assert Expired(At(tasks, Offset(Lens(tasks), i) + j), now);
    }
    if exists k :: 0 <= k < Total(tasks) && Expired(At(tasks, k), now) {
      var k :| 0 <= k < Total(tasks) && Expired(At(tasks, k), now);
      var c := Coord(tasks, k);
      assert Expired(tasks[c.0].actions[c.1], now);
    }
  }

  // ---------------------------------------------------------------- the reconcile pass

  /** Reconcile on a stored status.  `rendered` is the template's rendering, `None` when the template
      or the hardware is missing or rendering fails. */
  function Reconcile(st: Status, now: int, rendered: Option<Template>): Status {
    match st.state
    case None => if rendered.Some? then Created(rendered.value) else st
    case Some(Running) => if StartTime(st.tasks).Some? then TimeoutPass(st, now) else st
    case _ => st
  }

  /** The pass on a stored object, which may be under deletion. */
  method ReconcileStored(st: Status, deleted: bool, now: int, rendered: Option<Template>) returns (st': Status)
    ensures st' == if deleted then st else Reconcile(st, now, rendered)
  {
    if deleted {
      return st;
    }
    var wf := new Workflow(st);
    match st.state {
      case None =>
        if rendered.Some? {
          st' := NewStatus(rendered.value);
        } else {
          st' := st;
        }
      case Some(Running) =>
        var crashed := ProcessRunningWorkflow(wf, now);
        st' := wf.Value();
      case _ => st' := st;
    }
  }
}
