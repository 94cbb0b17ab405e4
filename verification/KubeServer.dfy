/** The Kubernetes-backed server: a report changes the nested status in place
    (server/kubernetes_api_workflow.go:88-207). */
module KubeServer {
  import opened Nested
  import opened Types
  import opened KubeStatus

  const SECOND := 1_000_000_000

  /** Whole seconds between two instants, truncated toward zero. */
  function ElapsedSeconds(started: int, now: int): int {
    if now >= started then (now - started) / SECOND else -((started - now) / SECOND)
  }

  /** The context built for a request: the scan's current action with the request's task and status. */
  datatype Context = Context(worker: string, task: string, action: string, index: int, state: State, total: int)

  /** getWorkflowContextForRequest. */
  function ContextForRequest(req: Report, tasks: seq<Task>): Context {
    var info := Info(tasks);
    Context(req.workerId, req.taskName, info.action, info.actionIndex, req.status, info.total)
  }

  datatype ModifyError = TaskNotFound | ActionNotFound | NoUpdateRequested

  datatype Error = InvalidWorkflowId | InvalidTaskName | InvalidActionName | InvalidTaskReported | InvalidActionReported

  datatype Reply = Accepted(status: Status) | Rejected(error: Error)

  /** The search's test: the context's index is compared with the index inside the task. */
  predicate Hit(task: Task, ctx: Context) {
    && task.name == ctx.task
    && 0 <= ctx.index < |task.actions| && task.actions[ctx.index].name == ctx.action
  }

  /** The first task from `ti` on that the search settles on. */
  function TargetFrom(tasks: seq<Task>, ctx: Context, ti: nat): (r: Option<nat>)
    requires ti <= |tasks|
    ensures r.Some? ==> ti <= r.value < |tasks| && Hit(tasks[r.value], ctx)
    ensures r.Some? ==> forall i :: ti <= i < r.value ==> !Hit(tasks[i], ctx)
    ensures r.None? ==> forall i :: ti <= i < |tasks| ==> !Hit(tasks[i], ctx)
    decreases |tasks| - ti
  {
    if ti == |tasks| then None
    else if Hit(tasks[ti], ctx) then Some(ti)
    else TargetFrom(tasks, ctx, ti + 1)
  }

  /** The action after a report at instant `now`. */
  function Mark(a: Action, status: State, now: int): Action {
    match status
    case Pending => a.(status := Pending)
    case Running => a.(status := Running, startedAt := Some(now))
    case _ =>
      if a.startedAt.Some? then a.(status := status, seconds := ElapsedSeconds(a.startedAt.value, now))
      else a.(status := status)
  }

  function StateAfter(before: Option<State>, ctx: Context): Option<State> {
    match ctx.state
    case Pending => before
    case Success => if ctx.index + 1 == ctx.total then Some(Success) else before
    case s => Some(s)
  }

  /** modifyWorkflowState: the changed copy, and the error.  A PENDING request changes the copy and
      then fails. */
  function Modify(st: Status, ctx: Context, now: int): (Status, Option<ModifyError>) {
    match TargetFrom(st.tasks, ctx, 0)
    case None =>
      var named := exists i :: 0 <= i < |st.tasks| && st.tasks[i].name == ctx.task;
      (st, Some(if named then ActionNotFound else TaskNotFound))
    case Some(ti) =>
      var a := Mark(st.tasks[ti].actions[ctx.index], ctx.state, now);
      (st.(tasks := Put(st.tasks, (ti, ctx.index), a), state := StateAfter(st.state, ctx)),
       if ctx.state == Pending then Some(NoUpdateRequested) else None)
  }

  /** The server's decision on a report about a stored object. */
  function Decide(st: Status, req: Report, now: int): Reply {
    if req.taskName == "" then Rejected(InvalidTaskName)
    else if req.actionName == "" then Rejected(InvalidActionName)
    else if req.taskName != Info(st.tasks).task then Rejected(InvalidTaskReported)
    else if req.actionName != Info(st.tasks).action then Rejected(InvalidActionReported)
    else
      var m := Modify(st, ContextForRequest(req, st.tasks), now);
      if m.1.Some? then Rejected(InvalidWorkflowId) else Accepted(m.0)
  }

  /** The object in memory that a request or a reconcile pass works on. */
  class Workflow {
    var state: Option<State>
    var globalTimeout: int
    var tasks: seq<Task>

    constructor (st: Status)
      ensures Value() == st
    {
      state, globalTimeout, tasks := st.state, st.globalTimeout, st.tasks;
    }

    function Value(): Status
      reads this
    {
      Status(state, globalTimeout, tasks)
    }

    /** modifyWorkflowState. */
    method ModifyWorkflowState(ctx: Context, now: int) returns (err: Option<ModifyError>)
      modifies this
      ensures (Value(), err) == Modify(old(Value()), ctx, now)
    {
      var taskIndex, actionIndex := -1, -1;
      var ti := 0;
      label search: while ti < |tasks|
        invariant 0 <= ti <= |tasks| && actionIndex == -1 && Value() == old(Value())
        invariant if taskIndex == -1 then forall i :: 0 <= i < ti ==> tasks[i].name != ctx.task
                  else 0 <= taskIndex < ti && tasks[taskIndex].name == ctx.task
        invariant TargetFrom(tasks, ctx, ti) == TargetFrom(tasks, ctx, 0)
      {
        if ctx.task == tasks[ti].name {
          taskIndex := ti;
          var ai := 0;
          while ai < |tasks[ti].actions|
            invariant 0 <= ai <= |tasks[ti].actions| && Value() == old(Value())
            invariant ctx.index < ai ==> !Hit(tasks[ti], ctx)
          {
            if tasks[ti].actions[ai].name == ctx.action && ctx.index == ai {
              actionIndex := ai;
              break search;
            }
            ai := ai + 1;
          }
        }
        ti := ti + 1;
      }
      if taskIndex < 0 {
        return Some(TaskNotFound);
      }
      if actionIndex < 0 {
        return Some(ActionNotFound);
      }
      var action := tasks[taskIndex].actions[actionIndex];
      action := action.(status := ctx.state);
      match ctx.state {
        case Running =>
          state := Some(Running);
          action := action.(startedAt := Some(now));
        case Failed =>
          state := Some(Failed);
          if action.startedAt.Some? {
            action := action.(seconds := ElapsedSeconds(action.startedAt.value, now));
          }
        case Timeout =>
          state := Some(Timeout);
          if action.startedAt.Some? {
            action := action.(seconds := ElapsedSeconds(action.startedAt.value, now));
          }
        case Success =>
          if action.startedAt.Some? {
            action := action.(seconds := ElapsedSeconds(action.startedAt.value, now));
          }
          if ctx.index + 1 == ctx.total {
            state := Some(Success);
          }
        case Pending =>
      }
      tasks := Put(tasks, (taskIndex, actionIndex), action);
      err := if ctx.state == Pending then Some(NoUpdateRequested) else None;
    }
  }

  /** The API server's objects. */
  class Store {
    var items: map<string, Status>

    constructor ()
      ensures items == map[]
    {
      items := map[];
    }

    /** ReportActionStatus: the object is read, the copy changed, and written back only on success. */
    method ReportActionStatus(id: string, req: Report, now: int) returns (reply: Reply)
      modifies this
      ensures id == "" || id !in old(items) ==>
                && items == old(items)
                && reply == Rejected(if id == "" then InvalidWorkflowId else if req.taskName == "" then InvalidTaskName
                                     else if req.actionName == "" then InvalidActionName else InvalidWorkflowId)
      ensures id != "" && id in old(items) ==>
                && reply == Decide(old(items)[id], req, now)
                && items == if reply.Accepted? then old(items)[id := reply.status] else old(items)
    {
      if id == "" {
        return Rejected(InvalidWorkflowId);
      }
      if req.taskName == "" {
        return Rejected(InvalidTaskName);
      }
      if req.actionName == "" {
        return Rejected(InvalidActionName);
      }
      if id !in items {
        return Rejected(InvalidWorkflowId);
      }
      var wf := new Workflow(items[id]);
      var info := GetTaskActionInfo(wf.tasks);
      if req.taskName != info.task {
        return Rejected(InvalidTaskReported);
      }
      if req.actionName != info.action {
        return Rejected(InvalidActionReported);
      }
      var err := wf.ModifyWorkflowState(ContextForRequest(req, wf.tasks), now);
      if err.Some? {
        return Rejected(InvalidWorkflowId);
      }
      items := items[id := wf.Value()];
      reply := Accepted(wf.Value());
    }
  }

  // ---------------------------------------------------------------- what is recorded

  /** Whole seconds that have passed, over the nanoseconds between the two instants. */
  lemma ElapsedExact(started: int, now: int)
    ensures now >= started ==>
              ElapsedSeconds(started, now) * 1_000_000_000 <= now - started
              < (ElapsedSeconds(started, now) + 1) * 1_000_000_000
    ensures now < started ==> ElapsedSeconds(started, now) == -ElapsedSeconds(now, started)
  {
  }

  /** A report leaves everything of the action but its status, its start and its seconds: RUNNING sets
      the start, a result the whole seconds since the start, if there is one. */
  lemma MarkExact(a: Action, status: State, now: int)
    ensures var b := Mark(a, status, now);
            && b.status == status && b == a.(status := b.status, startedAt := b.startedAt, seconds := b.seconds)
            && b.startedAt == (if status == Running then Some(now) else a.startedAt)
            && (status == Running || status == Pending || a.startedAt.None? ==> b.seconds == a.seconds)
            && (status != Running && status != Pending && a.startedAt.Some? && now >= a.startedAt.value ==>
                  b.seconds * 1_000_000_000 <= now - a.startedAt.value < (b.seconds + 1) * 1_000_000_000)
  {
    if a.startedAt.Some? {
      ElapsedExact(a.startedAt.value, now);
    }
  }

  /** When the change fails, and with which error. */
  lemma ModifyFailsExactly(st: Status, ctx: Context, now: int)
    ensures var err := Modify(st, ctx, now).1;
            && (err == Some(TaskNotFound) <==> forall i :: 0 <= i < |st.tasks| ==> st.tasks[i].name != ctx.task)
            && (err == Some(ActionNotFound) <==>
                && (exists i :: 0 <= i < |st.tasks| && st.tasks[i].name == ctx.task)
                && (forall i :: 0 <= i < |st.tasks| ==> !Hit(st.tasks[i], ctx)))
            && (err == Some(NoUpdateRequested) <==>
                ctx.state == Pending && exists i :: 0 <= i < |st.tasks| && Hit(st.tasks[i], ctx))
  {
  }

  // ---------------------------------------------------------------- which reports are applied

  /** What template validation guarantees about the nested status. */
  predicate Named(tasks: seq<Task>) {
    && (forall i :: 0 <= i < |tasks| ==> tasks[i].name != "")
    && (forall i, i' :: 0 <= i < i' < |tasks| ==> tasks[i].name != tasks[i'].name)
    && (forall i, j :: 0 <= i < |tasks| && 0 <= j < |tasks[i].actions| ==> tasks[i].actions[j].name != "")
    && (forall i, j, j' :: 0 <= i < |tasks| && 0 <= j < j' < |tasks[i].actions| ==>
          tasks[i].actions[j].name != tasks[i].actions[j'].name)
  }

  /** No action lies in a task before the current one. */
  predicate InFirstTask(tasks: seq<Task>)
    requires Done(tasks) < Total(tasks)
  {
    Offset(Lens(tasks), Coord(tasks, Done(tasks)).0) == 0
  }

  lemma TargetExact(tasks: seq<Task>, ctx: Context)
    requires Named(tasks) && Done(tasks) < Total(tasks)
    requires ctx.task == Info(tasks).task && ctx.action == Info(tasks).action && ctx.index == Done(tasks)
    ensures TargetFrom(tasks, ctx, 0) == if InFirstTask(tasks) then Some(Coord(tasks, Done(tasks)).0) else None
  {
  }

  /** Exactly which reports are applied: those that name the current task and action, are not
      PENDING, and only while no action lies in an earlier task. */
  predicate Applies(st: Status, req: Report) {
    && Done(st.tasks) < Total(st.tasks)
    && req.taskName == Info(st.tasks).task && req.actionName == Info(st.tasks).action
    && req.status != Pending && InFirstTask(st.tasks)
  }

  /** An accepted report marks the current action and no other entry of the flat list; the workflow
      state follows the report, SUCCESS only on the last action. */
  predicate Effect(st: Status, req: Report, now: int, st': Status) {
    var k := Done(st.tasks);
    && k < Total(st.tasks)
    && Lens(st'.tasks) == Lens(st.tasks) && st'.globalTimeout == st.globalTimeout
    && st'.tasks == Put(st.tasks, Coord(st.tasks, k), Mark(At(st.tasks, k), req.status, now))
    && (forall j :: 0 <= j < Total(st.tasks) ==>
          At(st'.tasks, j) == if j == k then Mark(At(st.tasks, k), req.status, now) else At(st.tasks, j))
    && st'.state == if req.status != Success then Some(req.status)
                    else if k + 1 == Total(st.tasks) then Some(Success) else st.state
  }

  lemma DecideExact(st: Status, req: Report, now: int)
    requires Named(st.tasks)
    ensures Decide(st, req, now).Accepted? <==> Applies(st, req)
    ensures Decide(st, req, now).Accepted? ==> Effect(st, req, now, Decide(st, req, now).status)
  {
    var k := Done(st.tasks);
    if k < Total(st.tasks) {
      TargetExact(st.tasks, ContextForRequest(req, st.tasks).(task := Info(st.tasks).task));
      PutFlat(st.tasks, k, Mark(At(st.tasks, k), req.status, now));
    }
  }

  /** The server's answer: reports without names; reports on another task, or another action, than the
      current one; and reports on the current action that are PENDING or behind an earlier task with
      actions. */
  lemma RepliesExactly(st: Status, req: Report, now: int)
    requires Named(st.tasks)
    ensures var reply, open := Decide(st, req, now), Done(st.tasks) < Total(st.tasks);
            var named := req.taskName != "" && req.actionName != "";
            var current := open && req.taskName == st.tasks[Coord(st.tasks, Done(st.tasks)).0].name
                           && req.actionName == At(st.tasks, Done(st.tasks)).name;
            && (reply == Rejected(InvalidTaskName) <==> req.taskName == "")
            && (reply == Rejected(InvalidActionName) <==> req.taskName != "" && req.actionName == "")
            && (reply == Rejected(InvalidTaskReported) <==>
                named && (open ==> req.taskName != st.tasks[Coord(st.tasks, Done(st.tasks)).0].name))
            && (reply == Rejected(InvalidActionReported) <==>
                && named && open && req.taskName == st.tasks[Coord(st.tasks, Done(st.tasks)).0].name
                && req.actionName != At(st.tasks, Done(st.tasks)).name)
            && (reply == Rejected(InvalidWorkflowId) <==> current && (req.status == Pending || !InFirstTask(st.tasks)))
            && (reply.Accepted? <==> current && req.status != Pending && InFirstTask(st.tasks))
  {
    DecideExact(st, req, now);
  }
}
