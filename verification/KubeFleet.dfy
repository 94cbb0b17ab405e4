/** The Kubernetes-backed server, the controller and any number of workers, as a step system: the
    workers of `Fleet` driving the objects of `KubeRuns`. */
module KubeFleet {
  import opened Nested
  import opened Types
  import opened RowProtocol
  import opened DbServer
  import opened Discipline
  import opened WorkerLoop
  import opened WorkerIndex
  import opened KubeStatus
  import KubeServer
  import Controller
  import Runs = KubeRuns
  import F = Fleet

  type Object = Runs.System

  /** The served action list, as far as the worker's loop looks at it. */
  function Served(tasks: seq<Task>): (actions: seq<WorkflowAction>)
    ensures |actions| == Total(tasks)
  {
    seq(Total(tasks), k requires 0 <= k < Total(tasks) =>
      WorkflowAction(tasks[Coord(tasks, k).0].name, tasks[Coord(tasks, k).0].workerAddr, At(tasks, k).name,
                     "", 0, [], [], [], [], [], ""))
  }

  /** getWorkflowContext: the scan's current action.  Without one the state reads as PENDING. */
  function ContextRow(tasks: seq<Task>): Row {
    var info := Info(tasks);
    Row(info.worker, info.task, info.action, info.actionIndex,
        if info.actionState.Some? then info.actionState.value else Pending, info.total)
  }

  /** The context in terms of the flat list: the first action that is not SUCCESS, with its task, worker
      and status, its position and the number of actions. */
  lemma ContextExact(tasks: seq<Task>)
    ensures var row, k := ContextRow(tasks), Done(tasks);
            && row.index == k && row.total == Total(tasks)
            && if k < Total(tasks) then
                 var task := tasks[Coord(tasks, k).0];
                 && row.worker == task.workerAddr && row.task == task.name
                 && row.action == At(tasks, k).name && row.state == At(tasks, k).status
               else row.worker == "" && row.task == "" && row.action == "" && row.state == Pending
  {
  }

  datatype System = System(table: map<string, Object>, procs: map<string, F.Process>)

  datatype Step =
    | Add(wf: string)
    | Pass(wf: string, now: int, rendered: Option<Template>)
    | Start(worker: string, retries: int)
    | Crash(worker: string)
    | Poll(worker: string, stream: seq<Offer>)
    | Receive(worker: string)
    | Execute(worker: string, run: Execution)
    | Lose(worker: string)
    | Deliver(worker: string, now: int)
    | GiveUp(worker: string)

  predicate Offered(table: map<string, Object>, worker: string, o: Offer) {
    o.wf in table && Assigned(table[o.wf].status, worker) && o.row == ContextRow(table[o.wf].status.tasks)
  }

  predicate IsStream(table: map<string, Object>, worker: string, stream: seq<Offer>) {
    && (forall i :: 0 <= i < |stream| ==> Offered(table, worker, stream[i]))
    && (forall i, j :: 0 <= i < j < |stream| ==> stream[i].wf != stream[j].wf)
  }

  predicate Sending(s: System, worker: string) {
    && worker in s.procs
    && (s.procs[worker].pc.Announcing? || s.procs[worker].pc.Concluding?)
    && s.procs[worker].pc.turn.wf in s.table
    && s.procs[worker].pc.turn.index < Total(s.table[s.procs[worker].pc.turn.wf].status.tasks)
  }

  predicate Enabled(s: System, step: Step) {
    match step
    case Add(wf) => wf != "" && wf !in s.table
    case Pass(wf, now, rendered) => wf in s.table
    case Start(w, retries) => w !in s.procs
    case Crash(w) => w in s.procs
    case Poll(w, stream) =>
      w != "" && w in s.procs && s.procs[w].pc.Receiving? && s.procs[w].stream == [] && IsStream(s.table, w, stream)
    case Receive(w) =>
      w in s.procs && s.procs[w].pc.Receiving? && s.procs[w].stream != [] && s.procs[w].stream[0].wf in s.table
    case Execute(w, run) => w in s.procs && s.procs[w].pc.Executing?
    case Lose(w) => Sending(s, w) && s.procs[w].pc.tried < s.procs[w].retries
    case Deliver(w, now) => Sending(s, w) && s.procs[w].pc.tried < s.procs[w].retries
    case GiveUp(w) => Sending(s, w) && s.procs[w].pc.tried >= s.procs[w].retries
  }

  function Seat(procs: map<string, F.Process>, worker: string, p: Option<F.Process>): map<string, F.Process> {
    if p.Some? then procs[worker := p.value] else procs - {worker}
  }

  function SetProc(s: System, worker: string, p: Option<F.Process>): System {
    s.(procs := Seat(s.procs, worker, p))
  }

  /** A process whose report was answered. */
  function Answered(tasks: seq<Task>, w: string, p: F.Process, accepted: bool): Option<F.Process>
    requires p.pc.Announcing? || p.pc.Concluding?
  {
    if accepted then F.Reported(Served(tasks), w, p) else Some(p.(pc := F.Tried(p.pc)))
  }

  /** The process after it has used up its attempts. */
  function GivenUp(actions: seq<WorkflowAction>, worker: string, p: F.Process): Option<F.Process>
    requires p.pc.Announcing? || p.pc.Concluding?
  {
    if p.pc.tried == 0 then F.Reported(actions, worker, p) else None
  }

  /** One step; a step that is not enabled changes nothing. */
  function Next(s: System, step: Step, validImage: string -> bool): System {
    if !Enabled(s, step) then s else
    match step
    case Add(wf) => s.(table := s.table[wf := Runs.Initial()])
    case Pass(wf, now, rendered) =>
      s.(table := s.table[wf := Runs.Next(s.table[wf], Runs.Pass(now, rendered), validImage)])
    case Start(w, retries) => SetProc(s, w, Some(F.Process(retries, [], F.Receiving)))
    case Crash(w) => SetProc(s, w, None)
    case Poll(w, stream) => SetProc(s, w, Some(s.procs[w].(stream := stream)))
    case Receive(w) => SetProc(s, w, F.Received(Served(s.table[s.procs[w].stream[0].wf].status.tasks), w, s.procs[w]))
    case Execute(w, run) =>
      SetProc(s, w, Some(s.procs[w].(pc := F.Concluding(s.procs[w].pc.turn, StatusOf(run), 0))))
    case Lose(w) => SetProc(s, w, Some(s.procs[w].(pc := F.Tried(s.procs[w].pc))))
    case Deliver(w, now) =>
      var p := s.procs[w];
      var o := s.table[p.pc.turn.wf];
      var req := F.ReportOf(Served(o.status.tasks), p.pc);
      SetProc(s.(table := s.table[p.pc.turn.wf := Runs.Next(o, Runs.Send(req, now), validImage)]), w,
              Answered(o.status.tasks, w, p, KubeServer.Decide(o.status, req, now).Accepted?))
    case GiveUp(w) =>
      var p := s.procs[w];
      SetProc(s, w, GivenUp(Served(s.table[p.pc.turn.wf].status.tasks), w, p))
  }

  function After(steps: seq<Step>, validImage: string -> bool): System {
    if steps == [] then System(map[], map[])
    else Next(After(steps[..|steps| - 1], validImage), steps[|steps| - 1], validImage)
  }

  lemma AfterSnoc(steps: seq<Step>, step: Step, validImage: string -> bool)
    ensures After(steps + [step], validImage) == Next(After(steps, validImage), step, validImage)
  {
    assert (steps + [step])[..|steps|] == steps;
  }

  // ---------------------------------------------------------------- the shape of a log

  function Successes(log: seq<Report>): nat {
    if log == [] then 0 else Successes(log[..|log| - 1]) + if log[|log| - 1].status == Success then 1 else 0
  }

  predicate Announced(log: seq<Report>) {
    log != [] && log[|log| - 1].status == Running
  }

  predicate Closed(log: seq<Report>) {
    log != [] && (log[|log| - 1].status == Failed || log[|log| - 1].status == Timeout)
  }

  /** Report `r` may come next: it is about the action after the last SUCCESS, one of the first `n`;
      RUNNING comes at most once per action; only the very first result needs it. */
  predicate MayFollow(actions: seq<WorkflowAction>, n: nat, log: seq<Report>, r: Report) {
    var k := Successes(log);
    && !Closed(log) && k < n <= |actions|
    && Names(r, actions[k]) && r.workerId == actions[k].workerId
    && if r.status == Running then !Announced(log) else IsResult(r.status) && log != []
  }

  /** The logs of Kubernetes-backed workers: for each action RUNNING or not, then SUCCESS; RUNNING
      always for the first action; possibly ended by one FAILED or TIMEOUT; and only for actions of
      the first task that has any. */
  predicate WorkerLog(actions: seq<WorkflowAction>, n: nat, log: seq<Report>) {
    log == [] ||
    (WorkerLog(actions, n, log[..|log| - 1]) && MayFollow(actions, n, log[..|log| - 1], log[|log| - 1]))
  }

  lemma LogStep(actions: seq<WorkflowAction>, n: nat, log: seq<Report>, r: Report)
    ensures WorkerLog(actions, n, log + [r]) <==> WorkerLog(actions, n, log) && MayFollow(actions, n, log, r)
    ensures Successes(log + [r]) == Successes(log) + if r.status == Success then 1 else 0
  {
    assert (log + [r])[..|log|] == log;
  }

  // ---------------------------------------------------------------- the invariant

  /** What the log says about the status of the current action and the workflow state. */
  predicate Current(o: Object) {
    var st := o.status;
    && Successes(o.log) == Done(st.tasks)
    && (Closed(o.log) ==> st.state == Some(o.log[|o.log| - 1].status))
    && (st.state == Some(Failed) ==> Closed(o.log))
    && (!Closed(o.log) && Done(st.tasks) < Total(st.tasks) ==>
          var status := At(st.tasks, Done(st.tasks)).status;
          if Announced(o.log) then status == Running || (status == Timeout && st.state == Some(Timeout))
          else status == Pending)
  }

  predicate ObjectInv(o: Object) {
    && Runs.Inv(o.status) && Current(o)
    && (forall k :: 0 <= k < Total(o.status.tasks) ==> Served(o.status.tasks)[k].workerId != "")
    && WorkerLog(Served(o.status.tasks), FirstBlock(Lens(o.status.tasks)), o.log)
  }

  /** It is the turn of action `index`, which belongs to `worker`. */
  predicate AtTurn(o: Object, worker: string, index: nat) {
    && !Closed(o.log) && Done(o.status.tasks) == index < Total(o.status.tasks)
    && Served(o.status.tasks)[index].workerId == worker
  }

  /** `announced`: the process is past the point where RUNNING is sent. */
  predicate OnTurn(o: Object, worker: string, turn: F.Turn, announced: bool) {
    && AtTurn(o, worker, turn.index)
    && if turn.contextState == Running then announced && o.log != [] else (Announced(o.log) <==> announced)
  }

  predicate PcInv(table: map<string, Object>, worker: string, pc: F.Pc) {
    pc.Receiving? ||
    (pc.turn.wf in table && OnTurn(table[pc.turn.wf], worker, pc.turn, !pc.Announcing?) &&
     (pc.Concluding? ==> IsResult(pc.status)))
  }

  /** A context on a stream, though the controller may have timed the workflow out since, still leads
      to the right turn. */
  predicate OfferInv(table: map<string, Object>, worker: string, o: Offer) {
    && o.wf in table && table[o.wf].status.state.Some?
    && var turn := SelectTurn(o.row, Served(table[o.wf].status.tasks), worker);
       turn.Take? ==> OnTurn(table[o.wf], worker, F.Turn(o.wf, o.row.state, turn.index), o.row.state == Running)
  }

  predicate ProcessInv(table: map<string, Object>, worker: string, p: F.Process) {
    && (forall i :: 0 <= i < |p.stream| ==> OfferInv(table, worker, p.stream[i]))
    && (forall i, j :: 0 <= i < j < |p.stream| ==> p.stream[i].wf != p.stream[j].wf)
    && PcInv(table, worker, p.pc)
    && (!p.pc.Receiving? ==> forall i :: 0 <= i < |p.stream| ==> p.stream[i].wf != p.pc.turn.wf)
  }

  predicate TableInv(table: map<string, Object>) {
    forall f :: f in table ==> ObjectInv(table[f])
  }

  predicate ProcsInv(table: map<string, Object>, procs: map<string, F.Process>) {
    forall w :: w in procs && procs[w].retries >= 1 ==> ProcessInv(table, w, procs[w])
  }

  predicate Inv(s: System) {
    TableInv(s.table) && ProcsInv(s.table, s.procs)
  }

  // ---------------------------------------------------------------- one object

  lemma InitialObject()
    ensures ObjectInv(Runs.Initial())
  {
    DoneUnique([], 0);
  }

  /** The same actions are served as long as only statuses change. */
  lemma ServedSame(tasks: seq<Task>, tasks': seq<Task>)
    requires Lens(tasks') == Lens(tasks)
    requires forall i :: 0 <= i < |tasks| ==>
               tasks'[i].name == tasks[i].name && tasks'[i].workerAddr == tasks[i].workerAddr
    requires forall k :: 0 <= k < Total(tasks) ==> At(tasks', k).name == At(tasks, k).name
    ensures Served(tasks') == Served(tasks)
  {
    forall k | 0 <= k < Total(tasks)
      ensures Served(tasks')[k] == Served(tasks)[k]
    {
      assert Coord(tasks', k) == Coord(tasks, k);
    }
  }

  lemma CreatedObject(t: Template, validImage: string -> bool)
    requires Controller.Rendered(t, validImage)
    ensures ObjectInv(Runs.System(Controller.Created(t), []))
  {
    Runs.CreateKeeps(t, validImage);
    Controller.NewTasksShape(t.tasks);
  }

  lemma PassServed(tasks: seq<Task>, now: int)
    ensures var tasks' := Controller.ExpireTasks(tasks, |tasks|, now);
            Lens(tasks') == Lens(tasks) && Done(tasks') == Done(tasks) && Served(tasks') == Served(tasks)
  {
    Runs.PassMoves(tasks, now);
    Controller.PassFlat(tasks, now);
    ServedSame(tasks, Controller.ExpireTasks(tasks, |tasks|, now));
  }

  lemma PassCurrent(o: Object, now: int)
    requires Current(o) && o.status.state == Some(Running)
    ensures Current(o.(status := Controller.TimeoutPass(o.status, now)))
  {
    Runs.PassMoves(o.status.tasks, now);
    Controller.PassFlat(o.status.tasks, now);
    Controller.ExpiredFlat(o.status.tasks, now);
  }

  /** A timeout pass. */
  lemma PassKeepsObject(o: Object, now: int) returns (o': Object)
    requires ObjectInv(o) && o.status.state == Some(Running)
    ensures o' == o.(status := Controller.TimeoutPass(o.status, now))
    ensures ObjectInv(o') && SameTurn(o, o')
  {
    o' := o.(status := Controller.TimeoutPass(o.status, now));
    PassServed(o.status.tasks, now);
    assert Current(o') by { PassCurrent(o, now); }
    assert Runs.Inv(o'.status) by { Runs.PassKeeps(o.status, now); }
  }

  lemma EffectServed(st: Status, req: Report, now: int, st': Status)
    requires KubeServer.Effect(st, req, now, st')
    ensures Served(st'.tasks) == Served(st.tasks)
  {
    ServedSame(st.tasks, st'.tasks);
  }

  lemma EffectCurrent(o: Object, req: Report, now: int, st': Status)
    requires Current(o) && !Closed(o.log) && Runs.Prefix(o.status.tasks)
    requires KubeServer.Effect(o.status, req, now, st') && (req.status == Running || IsResult(req.status))
    requires Done(st'.tasks) == Done(o.status.tasks) + if req.status == Success then 1 else 0
    ensures Current(Runs.System(st', o.log + [req]))
  {
    var log' := o.log + [req];
    assert log'[..|log'| - 1] == o.log;
  }

  /** A process at its turn sends the next event. */
  lemma NextEvent(o: Object, worker: string, pc: F.Pc, req: Report)
    requires (pc.Announcing? || pc.Concluding?) && OnTurn(o, worker, pc.turn, pc.Concluding?)
    requires (pc.Concluding? ==> IsResult(pc.status)) && req == F.ReportOf(Served(o.status.tasks), pc)
    requires Successes(o.log) == Done(o.status.tasks) && KubeServer.InFirstTask(o.status.tasks)
    ensures MayFollow(Served(o.status.tasks), FirstBlock(Lens(o.status.tasks)), o.log, req)
  {
    FirstBlockExact(Lens(o.status.tasks), Done(o.status.tasks));
  }

  /** A report of a process at its turn, if accepted, is the next event. */
  lemma ReportKeepsObject(o: Object, worker: string, pc: F.Pc, req: Report, now: int) returns (o': Object)
    requires ObjectInv(o) && (pc.Announcing? || pc.Concluding?) && OnTurn(o, worker, pc.turn, pc.Concluding?)
    requires pc.Concluding? ==> IsResult(pc.status)
    requires req == F.ReportOf(Served(o.status.tasks), pc) && KubeServer.Decide(o.status, req, now).Accepted?
    ensures o' == Runs.System(KubeServer.Decide(o.status, req, now).status, o.log + [req])
    ensures ObjectInv(o') && Follows(o, req, o')
  {
    var st, st' := o.status, KubeServer.Decide(o.status, req, now).status;
    o' := Runs.System(st', o.log + [req]);
    assert KubeServer.Applies(st, req)
           && KubeServer.Effect(st, req, now, st') by { KubeServer.DecideExact(st, req, now); }
    Runs.ReportMoves(st, req, now);
    assert Runs.Inv(st') by { Runs.ReportKeeps(st, req, now); }
    EffectServed(st, req, now, st');
    EffectCurrent(o, req, now, st');
    NextEvent(o, worker, pc, req);
    LogStep(Served(st.tasks), FirstBlock(Lens(st.tasks)), o.log, req);
  }

  // ---------------------------------------------------------------- all objects and processes

  /** A workflow without actions is offered to the worker of its first task, which then panics. */
  lemma EmptyWorkflowPanics(t: Template, validImage: string -> bool)
    requires Controller.Rendered(t, validImage) && Sum(TemplateLens(t.tasks)) == 0
    ensures var st, w := Controller.Created(t), t.tasks[0].workerAddr;
            Assigned(st, w) && SelectTurn(ContextRow(st.tasks), Served(st.tasks), w) == NoSuchAction
  {
    Controller.NewTasksShape(t.tasks);
  }

  /** A workflow with actions is offered to the worker at turn. */
  lemma OfferedIsTurn(table: map<string, Object>, worker: string, o: Offer)
    requires Offered(table, worker, o) && ObjectInv(table[o.wf])
    ensures OfferInv(table, worker, o)
  {
    var tasks := table[o.wf].status.tasks;
    if Done(tasks) < Total(tasks) {
      assert At(tasks, Done(tasks)).name != "";
    }
  }

  /** The object still has the same actions, in the same tasks. */
  predicate SameShape(o: Object, o': Object) {
    Served(o'.status.tasks) == Served(o.status.tasks) && Lens(o'.status.tasks) == Lens(o.status.tasks)
  }

  /** Object `f` changed, but not whose turn it is. */
  predicate SameTurn(o: Object, o': Object) {
    && o'.log == o.log && o'.status.state.Some? && Done(o'.status.tasks) == Done(o.status.tasks)
    && SameShape(o, o')
  }

  lemma SameTurnKeeps(table: map<string, Object>, f: string, o': Object, w: string, p: F.Process)
    requires f in table && SameTurn(table[f], o') && ProcessInv(table, w, p)
    ensures ProcessInv(table[f := o'], w, p)
  {
    forall i | 0 <= i < |p.stream|
      ensures OfferInv(table[f := o'], w, p.stream[i])
    {
      assert OfferInv(table, w, p.stream[i]);
    }
  }

  /** No process knows an object the controller has not created yet. */
  lemma CreationKeeps(table: map<string, Object>, f: string, o': Object, w: string, p: F.Process)
    requires f in table && table[f].status.state.None? && table[f].status.tasks == [] && ProcessInv(table, w, p)
    ensures ProcessInv(table[f := o'], w, p)
  {
    forall i | 0 <= i < |p.stream|
      ensures OfferInv(table[f := o'], w, p.stream[i])
    {
      assert OfferInv(table, w, p.stream[i]);
    }
  }

  /** Only the worker at turn knows anything about object `f` that its report could invalidate. */
  lemma OthersUnaffected(table: map<string, Object>, f: string, o': Object, worker: string, w: string, p: F.Process)
    requires f in table && AtTurn(table[f], worker, Done(table[f].status.tasks))
    requires o'.status.state.Some? && Served(o'.status.tasks) == Served(table[f].status.tasks)
    requires w != worker && ProcessInv(table, w, p)
    ensures ProcessInv(table[f := o'], w, p)
  {
    forall i | 0 <= i < |p.stream|
      ensures OfferInv(table[f := o'], w, p.stream[i])
    {
      assert OfferInv(table, w, p.stream[i]);
    }
  }

  lemma SeatKeeps(table: map<string, Object>, procs: map<string, F.Process>, worker: string, p: Option<F.Process>)
    requires ProcsInv(table, procs - {worker})
    requires p.Some? && p.value.retries >= 1 ==> ProcessInv(table, worker, p.value)
    ensures ProcsInv(table, Seat(procs, worker, p))
  {
    var procs' := Seat(procs, worker, p);
    forall w | w in procs' && procs'[w].retries >= 1
      ensures ProcessInv(table, w, procs'[w])
    {
      if w != worker {
        assert w in procs - {worker} && procs'[w] == (procs - {worker})[w];
      }
    }
  }

  /** Replacing one process keeps the invariant if the new one keeps its part. */
  lemma SetProcKeeps(s: System, worker: string, p: Option<F.Process>)
    requires ProcsInv(s.table, s.procs)
    requires p.Some? && p.value.retries >= 1 ==> ProcessInv(s.table, worker, p.value)
    ensures ProcsInv(s.table, SetProc(s, worker, p).procs)
  {
    SeatKeeps(s.table, s.procs, worker, p);
  }

  lemma AddKeepsProcs(table: map<string, Object>, procs: map<string, F.Process>, f: string, o': Object)
    requires ProcsInv(table, procs) && f !in table
    ensures ProcsInv(table[f := o'], procs)
  {
    forall w | w in procs && procs[w].retries >= 1
      ensures ProcessInv(table[f := o'], w, procs[w])
    {
      var p := procs[w];
      forall i | 0 <= i < |p.stream|
        ensures OfferInv(table[f := o'], w, p.stream[i])
      {
        assert OfferInv(table, w, p.stream[i]);
      }
    }
  }

  /** Object `f` is replaced by what a pass makes of it. */
  lemma ReplaceKeepsProcs(table: map<string, Object>, procs: map<string, F.Process>, f: string, o': Object)
    requires ProcsInv(table, procs) && f in table
    requires (table[f].status.state.None? && table[f].status.tasks == []) || SameTurn(table[f], o')
    ensures ProcsInv(table[f := o'], procs)
  {
    forall w | w in procs && procs[w].retries >= 1
      ensures ProcessInv(table[f := o'], w, procs[w])
    {
      if SameTurn(table[f], o') {
        SameTurnKeeps(table, f, o', w, procs[w]);
      } else {
        CreationKeeps(table, f, o', w, procs[w]);
      }
    }
  }

  lemma PutKeepsTable(table: map<string, Object>, f: string, o': Object)
    requires TableInv(table) && ObjectInv(o')
    ensures TableInv(table[f := o'])
  {
  }

  lemma UncreatedLog(o: Object)
    requires ObjectInv(o) && o.status.state.None?
    ensures o.log == [] && o.status.tasks == []
  {
  }

  /** When a pass creates, when it times out, and when it does nothing. */
  lemma PassCases(o: Object, now: int, rendered: Option<Template>, validImage: string -> bool)
    ensures Runs.Next(o, Runs.Pass(now, rendered), validImage) ==
            if o.status.state.None? && rendered.Some? && Controller.Rendered(rendered.value, validImage)
            then Runs.System(Controller.Created(rendered.value), o.log)
            else if o.status.state == Some(Running) && Controller.StartTime(o.status.tasks).Some?
            then o.(status := Controller.TimeoutPass(o.status, now)) else o
  {
  }

  /** What a pass makes of an object. */
  lemma PassOutcome(o: Object, now: int, rendered: Option<Template>, validImage: string -> bool) returns (o': Object)
    requires ObjectInv(o)
    ensures o' == Runs.Next(o, Runs.Pass(now, rendered), validImage) && ObjectInv(o')
    ensures (o.status.state.None? && o.status.tasks == []) || SameTurn(o, o')
  {
    PassCases(o, now, rendered, validImage);
    if o.status.state.None? {
      UncreatedLog(o);
      o' := o;
      if rendered.Some? && Controller.Rendered(rendered.value, validImage) {
        CreatedObject(rendered.value, validImage);
        o' := Runs.System(Controller.Created(rendered.value), []);
      }
    } else if o.status.state == Some(Running) && Controller.StartTime(o.status.tasks).Some? {
      o' := PassKeepsObject(o, now);
    } else {
      o' := o;
    }
  }

  lemma PassKeeps(s: System, f: string, now: int, rendered: Option<Template>, validImage: string -> bool)
      returns (o': Object)
    requires Inv(s) && f in s.table
    ensures o' == Runs.Next(s.table[f], Runs.Pass(now, rendered), validImage) && Inv(s.(table := s.table[f := o']))
  {
    assert ObjectInv(s.table[f]);
    o' := PassOutcome(s.table[f], now, rendered, validImage);
    PutKeepsTable(s.table, f, o');
    ReplaceKeepsProcs(s.table, s.procs, f, o');
  }

  /** The next object after an accepted report `req`. */
  predicate Follows(o: Object, req: Report, o': Object) {
    && o'.log == o.log + [req] && o'.status.state.Some? && SameShape(o, o')
    && Done(o'.status.tasks) == Done(o.status.tasks) + if req.status == Success then 1 else 0
  }

  /** The turn of the sender after an accepted report, if it goes on. */
  lemma TurnGoesOn(o: Object, worker: string, p: F.Process, req: Report, o': Object, p': F.Process)
    requires (p.pc.Announcing? || p.pc.Concluding?) && OnTurn(o, worker, p.pc.turn, p.pc.Concluding?)
    requires req == F.ReportOf(Served(o.status.tasks), p.pc) && Follows(o, req, o')
    requires F.Reported(Served(o.status.tasks), worker, p) == Some(p') && !p'.pc.Receiving?
    ensures p'.pc.turn.wf == p.pc.turn.wf && OnTurn(o', worker, p'.pc.turn, !p'.pc.Announcing?) && !p'.pc.Concluding?
  {
    assert o'.log[|o'.log| - 1] == req;
    assert Total(o'.status.tasks) == |Served(o'.status.tasks)| == Total(o.status.tasks);
  }

  /** The rest of the stream is about other workflows. */
  lemma StreamKeeps(table: map<string, Object>, worker: string, stream: seq<Offer>, f: string, o': Object)
    requires forall i :: 0 <= i < |stream| ==> OfferInv(table, worker, stream[i]) && stream[i].wf != f
    ensures forall i :: 0 <= i < |stream| ==> OfferInv(table[f := o'], worker, stream[i])
  {
    forall i | 0 <= i < |stream|
      ensures OfferInv(table[f := o'], worker, stream[i])
    {
      assert OfferInv(table, worker, stream[i]);
    }
  }

  /** The sender after an accepted report. */
  lemma SenderGoesOn(table: map<string, Object>, worker: string, p: F.Process, f: string, req: Report, o': Object)
    requires ProcessInv(table, worker, p) && (p.pc.Announcing? || p.pc.Concluding?) && f == p.pc.turn.wf
    requires req == F.ReportOf(Served(table[f].status.tasks), p.pc) && Follows(table[f], req, o')
    ensures var p' := F.Reported(Served(table[f].status.tasks), worker, p);
            p'.Some? ==> ProcessInv(table[f := o'], worker, p'.value)
  {
    StreamKeeps(table, worker, p.stream, f, o');
    var p' := F.Reported(Served(table[f].status.tasks), worker, p);
    if p'.Some? && !p'.value.pc.Receiving? {
      TurnGoesOn(table[f], worker, p, req, o', p'.value);
    }
  }

  lemma OthersKeep(table: map<string, Object>, procs: map<string, F.Process>, worker: string, f: string, req: Report,
                   o': Object)
    requires ProcsInv(table, procs) && f in table && AtTurn(table[f], worker, Done(table[f].status.tasks))
    requires Follows(table[f], req, o')
    ensures ProcsInv(table[f := o'], procs - {worker})
  {
    var rest := procs - {worker};
    forall w | w in rest && rest[w].retries >= 1
      ensures ProcessInv(table[f := o'], w, rest[w])
    {
      assert w in procs && w != worker && rest[w] == procs[w];
      OthersUnaffected(table, f, o', worker, w, procs[w]);
    }
  }

  lemma AcceptedKeeps(table: map<string, Object>, procs: map<string, F.Process>, worker: string, p: F.Process,
                      f: string,
                      req: Report, o': Object)
    requires ProcsInv(table, procs) && ProcessInv(table, worker, p)
    requires (p.pc.Announcing? || p.pc.Concluding?) && f == p.pc.turn.wf && f in table
    requires req == F.ReportOf(Served(table[f].status.tasks), p.pc) && Follows(table[f], req, o')
    ensures ProcsInv(table[f := o'], Seat(procs, worker, F.Reported(Served(table[f].status.tasks), worker, p)))
  {
    OthersKeep(table, procs, worker, f, req, o');
    SenderGoesOn(table, worker, p, f, req, o');
    SeatKeeps(table[f := o'], procs, worker, F.Reported(Served(table[f].status.tasks), worker, p));
  }

  lemma DeliverAccepted(s: System, worker: string, p: F.Process, f: string, o: Object, req: Report, now: int)
      returns (o': Object)
    requires Inv(s) && worker in s.procs && p == s.procs[worker] && p.retries >= 1 && f in s.table && o == s.table[f]
    requires (p.pc.Announcing? || p.pc.Concluding?) && f == p.pc.turn.wf && ProcessInv(s.table, worker, p)
    requires req == F.ReportOf(Served(o.status.tasks), p.pc) && KubeServer.Decide(o.status, req, now).Accepted?
    ensures o' == Runs.System(KubeServer.Decide(o.status, req, now).status, o.log + [req])
    ensures Inv(SetProc(s.(table := s.table[f := o']), worker, F.Reported(Served(o.status.tasks), worker, p)))
  {
    assert ObjectInv(o);
    o' := ReportKeepsObject(o, worker, p.pc, req, now);
    PutKeepsTable(s.table, f, o');
    AcceptedKeeps(s.table, s.procs, worker, p, f, req, o');
  }

  lemma DeliverCases(s: System, worker: string, now: int, validImage: string -> bool, p: F.Process, f: string,
                     o: Object, req: Report)
    requires Enabled(s, Deliver(worker, now)) && p == s.procs[worker] && f == p.pc.turn.wf && o == s.table[f]
    requires req == F.ReportOf(Served(o.status.tasks), p.pc)
    ensures var reply := KubeServer.Decide(o.status, req, now);
            Next(s, Deliver(worker, now), validImage) ==
            if reply.Accepted?
            then SetProc(s.(table := s.table[f := Runs.System(reply.status, o.log + [req])]), worker,
                         F.Reported(Served(o.status.tasks), worker, p))
            else SetProc(s, worker, Some(p.(pc := F.Tried(p.pc))))
  {
    assert s.table[f := o] == s.table;
  }

  lemma DeliverKeeps(s: System, worker: string, now: int, validImage: string -> bool) returns (s': System)
    requires Inv(s) && Enabled(s, Deliver(worker, now))
    ensures s' == Next(s, Deliver(worker, now), validImage) && Inv(s')
  {
    var p := s.procs[worker];
    var f := p.pc.turn.wf;
    var o := s.table[f];
    var req := F.ReportOf(Served(o.status.tasks), p.pc);
    DeliverCases(s, worker, now, validImage, p, f, o, req);
    if KubeServer.Decide(o.status, req, now).Accepted? {
      assert ProcessInv(s.table, worker, p);
      var o' := DeliverAccepted(s, worker, p, f, o, req, now);
      s' := SetProc(s.(table := s.table[f := o']), worker, F.Reported(Served(o.status.tasks), worker, p));
    } else {
      MoveKeeps(s, worker, F.Tried(p.pc));
      s' := SetProc(s, worker, Some(p.(pc := F.Tried(p.pc))));
    }
  }

  lemma ReceivedInv(table: map<string, Object>, worker: string, p: F.Process)
    requires ProcessInv(table, worker, p) && p.pc.Receiving? && p.stream != []
    ensures p.stream[0].wf in table
    ensures var p' := F.Received(Served(table[p.stream[0].wf].status.tasks), worker, p);
            p'.Some? ==> ProcessInv(table, worker, p'.value)
  {
    assert OfferInv(table, worker, p.stream[0]);
    var rest := p.stream[1..];
    assert forall i :: 0 <= i < |rest| ==> OfferInv(table, worker, rest[i]) && rest[i].wf != p.stream[0].wf;
  }

  lemma ReceiveKeeps(s: System, worker: string)
    requires ProcsInv(s.table, s.procs) && Enabled(s, Receive(worker))
    ensures var actions := Served(s.table[s.procs[worker].stream[0].wf].status.tasks);
            ProcsInv(s.table, SetProc(s, worker, F.Received(actions, worker, s.procs[worker])).procs)
  {
    var p := s.procs[worker];
    if p.retries >= 1 {
      ReceivedInv(s.table, worker, p);
    }
    SetProcKeeps(s, worker, F.Received(Served(s.table[p.stream[0].wf].status.tasks), worker, p));
  }

  /** A step of a process that neither starts nor ends a turn. */
  lemma MoveKeeps(s: System, worker: string, pc: F.Pc)
    requires ProcsInv(s.table, s.procs) && worker in s.procs && !s.procs[worker].pc.Receiving? && !pc.Receiving?
    requires pc.turn == s.procs[worker].pc.turn && (pc.Announcing? <==> s.procs[worker].pc.Announcing?)
    requires pc.Concluding? && !IsResult(pc.status) ==>
               s.procs[worker].pc.Concluding? && pc.status == s.procs[worker].pc.status
    ensures ProcsInv(s.table, SetProc(s, worker, Some(s.procs[worker].(pc := pc))).procs)
  {
    var p, p' := s.procs[worker], s.procs[worker].(pc := pc);
    if p.retries >= 1 {
      assert ProcessInv(s.table, worker, p);
      assert ProcessInv(s.table, worker, p');
    }
    SetProcKeeps(s, worker, Some(p'));
  }

  lemma GiveUpKeeps(s: System, worker: string)
    requires ProcsInv(s.table, s.procs) && Enabled(s, GiveUp(worker))
    ensures var actions := Served(s.table[s.procs[worker].pc.turn.wf].status.tasks);
            ProcsInv(s.table, SetProc(s, worker, GivenUp(actions, worker, s.procs[worker])).procs)
  {
    var p := s.procs[worker];
    var p' := GivenUp(Served(s.table[p.pc.turn.wf].status.tasks), worker, p);
    assert p'.Some? ==> p'.value.retries == p.retries < 1;
    SetProcKeeps(s, worker, p');
  }

  lemma PollKeeps(s: System, worker: string, stream: seq<Offer>)
    requires Inv(s) && Enabled(s, Poll(worker, stream))
    ensures Inv(SetProc(s, worker, Some(s.procs[worker].(stream := stream))))
  {
    forall i | 0 <= i < |stream|
      ensures OfferInv(s.table, worker, stream[i])
    {
      OfferedIsTurn(s.table, worker, stream[i]);
    }
    SetProcKeeps(s, worker, Some(s.procs[worker].(stream := stream)));
  }

  /** Every step keeps the invariant. */
  lemma StepKeeps(s: System, step: Step, validImage: string -> bool)
    requires Inv(s)
    ensures Inv(Next(s, step, validImage))
  {
    if Enabled(s, step) {
      match step
      case Add(wf) =>
        InitialObject();
        PutKeepsTable(s.table, wf, Runs.Initial());
        AddKeepsProcs(s.table, s.procs, wf, Runs.Initial());
      case Pass(wf, now, rendered) => var o' := PassKeeps(s, wf, now, rendered, validImage);
      case Start(w, retries) => SetProcKeeps(s, w, Some(F.Process(retries, [], F.Receiving)));
      case Crash(w) => SetProcKeeps(s, w, None);
      case Poll(w, stream) => PollKeeps(s, w, stream);
      case Receive(w) => ReceiveKeeps(s, w);
      case Execute(w, run) => MoveKeeps(s, w, F.Concluding(s.procs[w].pc.turn, StatusOf(run), 0));
      case Lose(w) => MoveKeeps(s, w, F.Tried(s.procs[w].pc));
      case Deliver(w, now) => var s' := DeliverKeeps(s, w, now, validImage);
      case GiveUp(w) => GiveUpKeeps(s, w);
    }
  }

  lemma {:induction false} RunKeeps(steps: seq<Step>, validImage: string -> bool)
    ensures Inv(After(steps, validImage))
  {
    if steps != [] {
      RunKeeps(steps[..|steps| - 1], validImage);
      StepKeeps(After(steps[..|steps| - 1], validImage), steps[|steps| - 1], validImage);
    }
  }

  // ---------------------------------------------------------------- theorems

  lemma PanicsOnObject(table: map<string, Object>, worker: string, o: Offer)
    requires Offered(table, worker, o) && ObjectInv(table[o.wf])
    ensures var tasks := table[o.wf].status.tasks;
            SelectTurn(o.row, Served(tasks), worker) == NoSuchAction <==> Total(tasks) == 0
  {
    var tasks := table[o.wf].status.tasks;
    if Done(tasks) < Total(tasks) {
      assert At(tasks, Done(tasks)).name != "";
    }
  }

  /** In every run a worker panics on a context it is offered iff the workflow has no actions. */
  lemma PanicsExactly(steps: seq<Step>, validImage: string -> bool, worker: string, o: Offer)
    requires Offered(After(steps, validImage).table, worker, o)
    ensures var tasks := After(steps, validImage).table[o.wf].status.tasks;
            SelectTurn(o.row, Served(tasks), worker) == NoSuchAction <==> Total(tasks) == 0
  {
    assert ObjectInv(After(steps, validImage).table[o.wf]) by { RunKeeps(steps, validImage); }
    PanicsOnObject(After(steps, validImage).table, worker, o);
  }

  /** Whatever server, controller and workers do, each object goes through a run of its own. */
  lemma {:induction false} ObjectRun(steps: seq<Step>, validImage: string -> bool, f: string)
      returns (run: seq<Runs.Step>)
    requires f in After(steps, validImage).table
    ensures After(steps, validImage).table[f] == Runs.After(run, validImage)
  {
    var front, last := steps[..|steps| - 1], steps[|steps| - 1];
    var s := After(front, validImage);
    if f !in s.table {
      run := [];
    } else {
      run := ObjectRun(front, validImage, f);
      if Enabled(s, last) && last.Pass? && last.wf == f {
        Runs.AfterSnoc(run, Runs.Pass(last.now, last.rendered), validImage);
        run := run + [Runs.Pass(last.now, last.rendered)];
      } else if Enabled(s, last) && last.Deliver? && s.procs[last.worker].pc.turn.wf == f {
        var req := F.ReportOf(Served(s.table[f].status.tasks), s.procs[last.worker].pc);
        Runs.AfterSnoc(run, Runs.Send(req, last.now), validImage);
        run := run + [Runs.Send(req, last.now)];
      }
    }
  }

  /** In every run of server, controller and workers, each log is one of a Kubernetes-backed worker,
      and its SUCCESS events are the completed actions. */
  lemma EveryLogIsWorkerLog(steps: seq<Step>, validImage: string -> bool, f: string)
    requires f in After(steps, validImage).table
    ensures var o := After(steps, validImage).table[f];
            && WorkerLog(Served(o.status.tasks), FirstBlock(Lens(o.status.tasks)), o.log)
            && Successes(o.log) == Done(o.status.tasks)
  {
    RunKeeps(steps, validImage);
    assert ObjectInv(After(steps, validImage).table[f]);
  }

  lemma {:induction false} WorkerLogOpens(actions: seq<WorkflowAction>, n: nat, log: seq<Report>)
    requires WorkerLog(actions, n, log) && log != []
    ensures log[0].status == Running
  {
    if |log| > 1 {
      WorkerLogOpens(actions, n, log[..|log| - 1]);
    }
  }

  /** With real workers a RUNNING workflow whose first task has actions has a start time. */
  lemma WorkersSetStartTime(steps: seq<Step>, validImage: string -> bool, f: string)
    requires f in After(steps, validImage).table
    requires var st := After(steps, validImage).table[f].status;
             st.state == Some(Running) && |st.tasks| > 0 && |st.tasks[0].actions| > 0
    ensures Controller.StartTime(After(steps, validImage).table[f].status.tasks).Some?
  {
    var o := After(steps, validImage).table[f];
    EveryLogIsWorkerLog(steps, validImage, f);
    if o.log != [] {
      WorkerLogOpens(Served(o.status.tasks), FirstBlock(Lens(o.status.tasks)), o.log);
    }
    var run := ObjectRun(steps, validImage, f);
    Runs.StartTimeDefined(run, validImage);
  }
}
