/** Exactly which logs Kubernetes-backed workers can leave behind. */
module KubeLogs {
  import opened Nested
  import opened Types
  import opened RowProtocol
  import opened DbServer
  import opened Discipline
  import opened WorkerLoop
  import opened WorkerIndex
  import opened KubeStatus
  import KubeServer
  import Controller
  import Runs = KubeRuns
  import F = Fleet
  import AL = ActionList
  import opened KubeFleet

  /** The list the server really serves leads to the same selection and the same reports. */
  lemma ServedMatches(tasks: seq<Task>, actions: seq<WorkflowAction>, row: Row, w: string)
    requires AL.ConvertedUpTo(tasks, actions, Total(tasks))
    ensures SelectTurn(row, actions, w) == SelectTurn(row, Served(tasks), w)
    ensures forall k, status :: 0 <= k < Total(tasks) ==>
              StatusReport(actions[k], status) == StatusReport(Served(tasks)[k], status)
  {
    assert |actions| == |Served(tasks)|;
    forall k | 0 <= k < Total(tasks)
      ensures actions[k].workerId == Served(tasks)[k].workerId
      ensures forall status :: StatusReport(actions[k], status) == StatusReport(Served(tasks)[k], status)
    {
      assert AL.ConvertedAt(tasks, actions[k], k);
    }
  }

  // ---------------------------------------------------------------- one object

  /** Object `o` serves these actions, the first `n` of them in its first task that has any; it has
      this log and was never timed out by the controller. */
  predicate Holds(o: Object, actions: seq<WorkflowAction>, n: nat, log: seq<Report>) {
    && o.log == log && Served(o.status.tasks) == actions && FirstBlock(Lens(o.status.tasks)) == n
    && (Closed(log) || Successes(log) == |actions| || o.status.state == Some(if log == [] then Pending else Running))
  }

  /** The first `n` actions have one owner, with an id. */
  predicate OneCrew(actions: seq<WorkflowAction>, n: nat) {
    n <= |actions| && forall k :: 0 <= k < n ==> actions[k].workerId == actions[0].workerId != ""
  }

  /** A report that may come next is accepted. */
  lemma Takes(o: Object, actions: seq<WorkflowAction>, n: nat, log: seq<Report>, r: Report)
    requires ObjectInv(o) && Holds(o, actions, n, log) && MayFollow(actions, n, log, r)
    ensures KubeServer.Applies(o.status, r)
  {
    var k := Done(o.status.tasks);
    FirstBlockExact(Lens(o.status.tasks), k);
    assert Served(o.status.tasks)[k] == actions[k];
  }

  lemma TakesNext(o: Object, actions: seq<WorkflowAction>, n: nat, log: seq<Report>, r: Report) returns (o': Object)
    requires ObjectInv(o) && Holds(o, actions, n, log) && MayFollow(actions, n, log, r)
    ensures KubeServer.Decide(o.status, r, 0).Accepted?
    ensures o' == Runs.System(KubeServer.Decide(o.status, r, 0).status, log + [r]) && Holds(o', actions, n, log + [r])
  {
    Takes(o, actions, n, log, r);
    var st := o.status;
    var reply := KubeServer.Decide(st, r, 0);
    assert reply.Accepted? && KubeServer.Effect(st, r, 0, reply.status) by { KubeServer.DecideExact(st, r, 0); }
    o' := Runs.System(reply.status, log + [r]);
    EffectServed(st, r, 0, reply.status);
    LogStep(actions, n, log, r);
  }

  /** The context the worker at turn gets. */
  lemma TurnIsOffered(o: Object, actions: seq<WorkflowAction>, n: nat, log: seq<Report>, w: string)
    requires ObjectInv(o) && Holds(o, actions, n, log)
    requires !Closed(log) && Successes(log) < |actions| && w == actions[Successes(log)].workerId
    ensures Assigned(o.status, w)
    ensures SelectTurn(ContextRow(o.status.tasks), actions, w) == Take(Successes(log))
    ensures ContextRow(o.status.tasks).state == if Announced(log) then Running else Pending
  {
    var tasks, k := o.status.tasks, Done(o.status.tasks);
    assert At(tasks, k).name != "";
    assert Served(tasks)[k].workerId == tasks[Coord(tasks, k).0].workerAddr;
  }

  // ---------------------------------------------------------------- runs

  predicate Seated(s: System, w: string, p: F.Process) {
    w in s.procs && s.procs[w] == p
  }

  /** Object `f` holds this log after the run. */
  predicate Reached(steps: seq<Step>, validImage: string -> bool, f: string, actions: seq<WorkflowAction>, n: nat,
                    log: seq<Report>) {
    f in After(steps, validImage).table && Holds(After(steps, validImage).table[f], actions, n, log)
  }

  /** Crash, start, poll. */
  lemma Polled(steps: seq<Step>, validImage: string -> bool, w: string, offer: Offer) returns (steps': seq<Step>)
    requires w != "" && KubeFleet.Offered(After(steps, validImage).table, w, offer)
    ensures steps <= steps' && After(steps', validImage).table == After(steps, validImage).table
    ensures Seated(After(steps', validImage), w, F.Process(1, [offer], F.Receiving))
  {
    AfterSnoc(steps, Crash(w), validImage);
    var steps1 := steps + [Crash(w)];
    AfterSnoc(steps1, Start(w, 1), validImage);
    var steps2 := steps1 + [Start(w, 1)];
    AfterSnoc(steps2, Poll(w, [offer]), validImage);
    assert KubeFleet.IsStream(After(steps2, validImage).table, w, [offer]);
    steps' := steps2 + [Poll(w, [offer])];
  }

  /** And receive. */
  lemma PickUp(steps: seq<Step>, validImage: string -> bool, f: string, w: string, o: Object, row: Row, k: nat)
      returns (steps': seq<Step>)
    requires w != "" && f in After(steps, validImage).table && o == After(steps, validImage).table[f]
    requires Assigned(o.status, w) && row == ContextRow(o.status.tasks)
    requires SelectTurn(row, Served(o.status.tasks), w) == Take(k)
    ensures steps <= steps' && After(steps', validImage).table == After(steps, validImage).table
    ensures Seated(After(steps', validImage), w, F.Process(1, [], F.Begin(F.Turn(f, row.state, k))))
  {
    var steps1 := Polled(steps, validImage, w, Offer(f, row));
    AfterSnoc(steps1, Receive(w), validImage);
    steps' := steps1 + [Receive(w)];
  }

  /** A process whose next report may come next gets it recorded. */
  lemma Reports(steps: seq<Step>, validImage: string -> bool, f: string, actions: seq<WorkflowAction>, n: nat,
                log: seq<Report>, w: string, p: F.Process, r: Report) returns (steps': seq<Step>, s': System)
    requires Reached(steps, validImage, f, actions, n, log) && Seated(After(steps, validImage), w, p)
    requires MayFollow(actions, n, log, r)
    requires p.retries == 1 && (p.pc.Announcing? || p.pc.Concluding?) && p.pc.tried == 0
    requires p.pc.turn.wf == f && p.pc.turn.index < |actions| && r == F.ReportOf(actions, p.pc)
    ensures Reached(steps', validImage, f, actions, n, log + [r]) && s' == After(steps', validImage)
    ensures var p' := F.Reported(actions, w, p); p'.Some? ==> Seated(s', w, p'.value)
  {
    var s := After(steps, validImage);
    var o := s.table[f];
    assert ObjectInv(o) by { RunKeeps(steps, validImage); }
    var o' := TakesNext(o, actions, n, log, r);
    AfterSnoc(steps, Deliver(w, 0), validImage);
    DeliverCases(s, w, 0, validImage, p, f, o, r);
    steps' := steps + [Deliver(w, 0)];
    s' := After(steps', validImage);
  }

  /** A process that has resumed and gone on to action `k`. */
  function Resumed(f: string, k: nat): F.Process {
    F.Process(1, [], F.Executing(F.Turn(f, Running, k)))
  }

  /** The process that resumed, with a result to report. */
  function Concludes(f: string, k: nat, status: State): F.Process {
    F.Process(1, [], F.Concluding(F.Turn(f, Running, k), status, 0))
  }

  lemma GoesOnUnannounced(actions: seq<WorkflowAction>, w: string, f: string, k: nat)
    requires k + 1 < |actions| && actions[k + 1].workerId == w
    ensures F.Reported(actions, w, Concludes(f, k, Success)) == Some(Resumed(f, k + 1))
  {
  }

  lemma Executes(steps: seq<Step>, validImage: string -> bool, f: string, actions: seq<WorkflowAction>, n: nat,
                 log: seq<Report>, w: string, k: nat, status: State) returns (steps': seq<Step>)
    requires Reached(steps, validImage, f, actions, n, log) && Seated(After(steps, validImage), w, Resumed(f, k))
    requires IsResult(status)
    ensures Reached(steps', validImage, f, actions, n, log)
            && Seated(After(steps', validImage), w, Concludes(f, k, status))
  {
    var run := Execution(status, status != Success);
    AfterSnoc(steps, Execute(w, run), validImage);
    steps' := steps + [Execute(w, run)];
  }

  /** If the log ends in a SUCCESS before the end of the first task, a worker has gone on to the next
      action without announcing it. */
  predicate GoneOn(s: System, f: string, actions: seq<WorkflowAction>, n: nat, log: seq<Report>)
    requires n <= |actions|
  {
    log != [] && log[|log| - 1].status == Success && Successes(log) < n ==>
      Seated(s, actions[0].workerId, Resumed(f, Successes(log)))
  }

  lemma GoesOn(s: System, f: string, actions: seq<WorkflowAction>, n: nat, log: seq<Report>, r: Report, w: string,
               k: nat)
    requires OneCrew(actions, n) && k == Successes(log) < n && w == actions[0].workerId
    requires r.status == Success && k + 1 < |actions| && actions[k + 1].workerId == w ==>
               Seated(s, w, Resumed(f, k + 1))
    ensures GoneOn(s, f, actions, n, log + [r])
  {
    LogStep(actions, n, log, r);
  }

  /** It gets any result recorded, and after SUCCESS goes on to the next action of its own. */
  lemma Results(steps: seq<Step>, validImage: string -> bool, f: string, actions: seq<WorkflowAction>, n: nat,
                log: seq<Report>, w: string, k: nat, r: Report) returns (steps': seq<Step>, s': System)
    requires Reached(steps, validImage, f, actions, n, log) && Seated(After(steps, validImage), w, Resumed(f, k))
    requires MayFollow(actions, n, log, r) && k == Successes(log) && IsResult(r.status)
    ensures Reached(steps', validImage, f, actions, n, log + [r]) && s' == After(steps', validImage)
    ensures r.status == Success && k + 1 < |actions| && actions[k + 1].workerId == w ==>
              Seated(s', w, Resumed(f, k + 1))
  {
    var steps1 := Executes(steps, validImage, f, actions, n, log, w, k, r.status);
    steps', s' := Reports(steps1, validImage, f, actions, n, log, w, Concludes(f, k, r.status), r);
    if r.status == Success && k + 1 < |actions| && actions[k + 1].workerId == w {
      GoesOnUnannounced(actions, w, f, k);
    }
  }

  lemma ResultsGoOn(steps: seq<Step>, validImage: string -> bool, f: string, actions: seq<WorkflowAction>, n: nat,
                    log: seq<Report>, w: string, k: nat, r: Report) returns (steps': seq<Step>)
    requires Reached(steps, validImage, f, actions, n, log) && Seated(After(steps, validImage), w, Resumed(f, k))
    requires MayFollow(actions, n, log, r) && IsResult(r.status) && k == Successes(log)
    requires OneCrew(actions, n) && w == actions[0].workerId
    ensures Reached(steps', validImage, f, actions, n, log + [r])
            && GoneOn(After(steps', validImage), f, actions, n, log + [r])
  {
    var s';
    steps', s' := Results(steps, validImage, f, actions, n, log, w, k, r);
    GoesOn(s', f, actions, n, log, r, w, k);
  }

  /** A restarted process takes the workflow up where the log is. */
  lemma TakesUp(steps: seq<Step>, validImage: string -> bool, f: string, actions: seq<WorkflowAction>, n: nat,
                log: seq<Report>, w: string) returns (steps': seq<Step>)
    requires Reached(steps, validImage, f, actions, n, log) && w != ""
    requires !Closed(log) && Successes(log) < |actions| && w == actions[Successes(log)].workerId
    ensures Reached(steps', validImage, f, actions, n, log)
    ensures Seated(After(steps', validImage), w,
                   if Announced(log) then Resumed(f, Successes(log))
                   else F.Process(1, [], F.Announcing(F.Turn(f, Pending, Successes(log)), 0)))
  {
    var o := After(steps, validImage).table[f];
    assert ObjectInv(o) by { RunKeeps(steps, validImage); }
    TurnIsOffered(o, actions, n, log, w);
    steps' := PickUp(steps, validImage, f, w, o, ContextRow(o.status.tasks), Successes(log));
  }

  // ---------------------------------------------------------------- every log, event by event

  /** The run has left this log behind. */
  predicate Left(steps: seq<Step>, validImage: string -> bool, f: string, actions: seq<WorkflowAction>, n: nat,
                 log: seq<Report>) {
    && Reached(steps, validImage, f, actions, n, log) && OneCrew(actions, n)
    && GoneOn(After(steps, validImage), f, actions, n, log)
  }

  lemma LeavesAnnouncement(steps: seq<Step>, validImage: string -> bool, f: string, actions: seq<WorkflowAction>,
                           n: nat,
                           log: seq<Report>, r: Report) returns (steps': seq<Step>)
    requires Left(steps, validImage, f, actions, n, log) && MayFollow(actions, n, log, r) && r.status == Running
    ensures Left(steps', validImage, f, actions, n, log + [r])
  {
    var k := Successes(log);
    var w := actions[k].workerId;
    var steps1 := TakesUp(steps, validImage, f, actions, n, log, w);
    var s';
    var p := F.Process(1, [], F.Announcing(F.Turn(f, Pending, k), 0));
    steps', s' := Reports(steps1, validImage, f, actions, n, log, w, p, r);
  }

  /** A worker that has resumed is at the action the log is at: a restarted one, or the one that has
      gone on. */
  lemma Resumes(steps: seq<Step>, validImage: string -> bool, f: string, actions: seq<WorkflowAction>, n: nat,
                log: seq<Report>, w: string) returns (steps': seq<Step>)
    requires Left(steps, validImage, f, actions, n, log) && WorkerLog(actions, n, log)
    requires log != [] && !Closed(log) && Successes(log) < n && w == actions[0].workerId
    ensures Reached(steps', validImage, f, actions, n, log)
    ensures Seated(After(steps', validImage), w, Resumed(f, Successes(log)))
  {
    steps' := steps;
    if Announced(log) {
      steps' := TakesUp(steps, validImage, f, actions, n, log, w);
    }
  }

  lemma LeavesResult(steps: seq<Step>, validImage: string -> bool, f: string, actions: seq<WorkflowAction>, n: nat,
                     log: seq<Report>, r: Report) returns (steps': seq<Step>)
    requires Left(steps, validImage, f, actions, n, log) && WorkerLog(actions, n, log)
    requires MayFollow(actions, n, log, r) && IsResult(r.status)
    ensures Left(steps', validImage, f, actions, n, log + [r])
  {
    var w := actions[0].workerId;
    var steps1 := Resumes(steps, validImage, f, actions, n, log, w);
    steps' := ResultsGoOn(steps1, validImage, f, actions, n, log, w, Successes(log), r);
  }

  /** From a new workflow, every worker log is left behind by some run. */
  lemma {:induction false} Leaves(start: seq<Step>, validImage: string -> bool, f: string, actions: seq<WorkflowAction>,
                                  n: nat,
                                  log: seq<Report>) returns (steps: seq<Step>)
    requires Left(start, validImage, f, actions, n, []) && WorkerLog(actions, n, log)
    ensures Left(steps, validImage, f, actions, n, log)
  {
    if log == [] {
      steps := start;
    } else {
      var front, r := log[..|log| - 1], log[|log| - 1];
      assert front + [r] == log;
      steps := Leaves(start, validImage, f, actions, n, front);
      if r.status == Running {
        steps := LeavesAnnouncement(steps, validImage, f, actions, n, front, r);
      } else {
        steps := LeavesResult(steps, validImage, f, actions, n, front, r);
      }
    }
  }

  // ---------------------------------------------------------------- theorems

  function ListOf(t: Template): seq<WorkflowAction> {
    Served(Controller.NewTasks(t.tasks))
  }

  function Limit(t: Template): nat {
    FirstBlock(TemplateLens(t.tasks))
  }

  lemma OwnerOf(t: Template, validImage: string -> bool, k: nat)
    requires Controller.Rendered(t, validImage) && k < Sum(TemplateLens(t.tasks))
    ensures k < |ListOf(t)| && ListOf(t)[k].workerId == t.tasks[Locate(TemplateLens(t.tasks), k).0].workerAddr != ""
  {
    Controller.NewTasksShape(t.tasks);
  }

  /** The first task's actions have one owner. */
  lemma TaskHasOneOwner(t: Template, validImage: string -> bool)
    requires Controller.Rendered(t, validImage)
    ensures OneCrew(ListOf(t), Limit(t))
  {
    var lens := TemplateLens(t.tasks);
    if Sum(lens) > 0 {
      FirstBlockExact(lens, 0);
      OwnerOf(t, validImage, Sum(lens) - 1);
    }
    forall k | 0 <= k < Limit(t)
      ensures ListOf(t)[k].workerId == ListOf(t)[0].workerId != ""
    {
      FirstBlockCoordinates(lens, k);
      OwnerOf(t, validImage, k);
      OwnerOf(t, validImage, 0);
    }
  }

  lemma Begins(f: string, t: Template, validImage: string -> bool) returns (steps: seq<Step>)
    requires f != "" && Controller.Rendered(t, validImage)
    ensures Left(steps, validImage, f, ListOf(t), Limit(t), [])
  {
    AfterSnoc([], Add(f), validImage);
    var steps1 := [] + [Add(f)];
    AfterSnoc(steps1, Pass(f, 0, Some(t)), validImage);
    steps := steps1 + [Pass(f, 0, Some(t))];
    PassCases(Runs.Initial(), 0, Some(t), validImage);
    Controller.NewTasksShape(t.tasks);
    TaskHasOneOwner(t, validImage);
  }

  /** Object `f` was created from this template and has this log. */
  predicate HasLog(s: System, f: string, t: Template, log: seq<Report>) {
    && f in s.table && s.table[f].log == log
    && Served(s.table[f].status.tasks) == ListOf(t) && FirstBlock(Lens(s.table[f].status.tasks)) == Limit(t)
  }

  lemma LeftBehind(f: string, t: Template, validImage: string -> bool, log: seq<Report>) returns (steps: seq<Step>)
    requires f != "" && Controller.Rendered(t, validImage) && WorkerLog(ListOf(t), Limit(t), log)
    ensures HasLog(After(steps, validImage), f, t, log)
  {
    var start := Begins(f, t, validImage);
    steps := Leaves(start, validImage, f, ListOf(t), Limit(t), log);
  }

  lemma OnlyWorkerLogs(steps: seq<Step>, f: string, t: Template, validImage: string -> bool, log: seq<Report>)
    requires HasLog(After(steps, validImage), f, t, log)
    ensures WorkerLog(ListOf(t), Limit(t), log)
  {
    EveryLogIsWorkerLog(steps, validImage, f);
  }

  /** Some run of server, controller and workers leaves this log behind. */
  ghost predicate CanLeave(f: string, t: Template, validImage: string -> bool, log: seq<Report>) {
    exists steps :: HasLog(After(steps, validImage), f, t, log)
  }

  /** Exactly the worker logs can be left behind. */
  lemma LogsExact(f: string, t: Template, validImage: string -> bool, log: seq<Report>)
    requires f != "" && Controller.Rendered(t, validImage)
    ensures CanLeave(f, t, validImage, log) <==> WorkerLog(ListOf(t), Limit(t), log)
  {
    if CanLeave(f, t, validImage, log) {
      var steps :| HasLog(After(steps, validImage), f, t, log);
      OnlyWorkerLogs(steps, f, t, validImage, log);
    } else if WorkerLog(ListOf(t), Limit(t), log) {
      var steps := LeftBehind(f, t, validImage, log);
    }
  }

  // ---------------------------------------------------------------- against the Postgres-backed workers

  /** Every result follows the announcement of its action. */
  predicate AllAnnounced(log: seq<Report>) {
    forall j :: 0 <= j < |log| && IsResult(log[j].status) ==> j > 0 && log[j - 1].status == Running
  }

  lemma {:induction false} SuccessesOfDisciplined(actions: seq<WorkflowAction>, log: seq<Report>)
    requires Disciplined(actions, log) && Open(log)
    ensures Successes(log) == |log| / 2
  {
    if log != [] {
      var n := |log| - 1;
      assert DisciplinedEvent(actions, log, n);
      DisciplinedPrefix(actions, log, n);
      SuccessesOfDisciplined(actions, log[..n]);
    }
  }

  lemma {:induction false} DisciplinedIsWorkerLog(actions: seq<WorkflowAction>, n: nat, log: seq<Report>)
    requires Disciplined(actions, log) && |log| <= 2 * n <= 2 * |actions|
    ensures WorkerLog(actions, n, log) && AllAnnounced(log)
  {
    if log != [] {
      var front := log[..|log| - 1];
      DisciplinedPrefix(actions, log, |log| - 1);
      DisciplinedIsWorkerLog(actions, n, front);
      SuccessesOfDisciplined(actions, front);
      assert DisciplinedEvent(actions, log, |log| - 1);
      if |log| > 1 {
        assert DisciplinedEvent(actions, log, |log| - 2);
      }
      assert MayFollow(actions, n, front, log[|log| - 1]);
    }
  }

  lemma AnnouncedFront(log: seq<Report>)
    requires AllAnnounced(log) && log != []
    ensures AllAnnounced(log[..|log| - 1])
  {
    var front := log[..|log| - 1];
    forall j | 0 <= j < |front| && IsResult(front[j].status)
      ensures j > 0 && front[j - 1].status == Running
    {
      assert log[j] == front[j];
    }
  }

  lemma {:induction false} AnnouncedIsDisciplined(actions: seq<WorkflowAction>, n: nat, log: seq<Report>)
    requires WorkerLog(actions, n, log) && AllAnnounced(log)
    ensures Disciplined(actions, log)
  {
    if log != [] {
      var front, r := log[..|log| - 1], log[|log| - 1];
      AnnouncedFront(log);
      AnnouncedIsDisciplined(actions, n, front);
      if front != [] {
        assert DisciplinedEvent(actions, front, |front| - 1);
      }
      SuccessesOfDisciplined(actions, front);
      DisciplinedAppend(actions, front, r);
      assert front + [r] == log;
    }
  }

  lemma DisciplinedAnnounces(actions: seq<WorkflowAction>, log: seq<Report>)
    requires Disciplined(actions, log)
    ensures AllAnnounced(log)
  {
    forall j | 0 <= j < |log| && IsResult(log[j].status)
      ensures j > 0 && log[j - 1].status == Running
    {
      assert DisciplinedEvent(actions, log, j);
      assert DisciplinedEvent(actions, log, j - 1);
    }
  }

  /** A log of Kubernetes-backed workers is one that Postgres-backed workers could leave iff every
      result in it was announced. */
  lemma DisciplinedExactly(actions: seq<WorkflowAction>, n: nat, log: seq<Report>)
    requires WorkerLog(actions, n, log)
    ensures Disciplined(actions, log) <==> AllAnnounced(log)
  {
    if AllAnnounced(log) {
      AnnouncedIsDisciplined(actions, n, log);
    } else if Disciplined(actions, log) {
      DisciplinedAnnounces(actions, log);
    }
  }

  /** The log of a worker that resumed the first action and then reports the second unannounced. */
  function UnannouncedLog(a: WorkflowAction, b: WorkflowAction): seq<Report> {
    [StatusReport(a, Running)] + [StatusReport(a, Success)] + [StatusReport(b, Success)]
  }

  lemma UnannouncedIsWorkerLog(actions: seq<WorkflowAction>, n: nat)
    requires 2 <= n <= |actions|
    ensures WorkerLog(actions, n, UnannouncedLog(actions[0], actions[1]))
    ensures !AllAnnounced(UnannouncedLog(actions[0], actions[1]))
  {
    var r0, r1, r2 := StatusReport(actions[0], Running), StatusReport(actions[0], Success),
        StatusReport(actions[1], Success);
    assert [] + [r0] == [r0];
    LogStep(actions, n, [], r0);
    LogStep(actions, n, [r0], r1);
    LogStep(actions, n, [r0] + [r1], r2);
    var log := UnannouncedLog(actions[0], actions[1]);
    assert log[2] == r2 && log[1] == r1;
  }

  /** For every template with two actions in its first working task, the Kubernetes-backed server
      records such a log, which no Postgres-backed server ever holds. */
  lemma UnannouncedIsRecorded(f: string, t: Template, validImage: string -> bool)
    requires f != "" && Controller.Rendered(t, validImage) && Limit(t) >= 2
    ensures |ListOf(t)| >= 2
    ensures var log := UnannouncedLog(ListOf(t)[0], ListOf(t)[1]);
            CanLeave(f, t, validImage, log) && !Disciplined(ListOf(t), log)
  {
    TaskHasOneOwner(t, validImage);
    var actions := ListOf(t);
    UnannouncedIsWorkerLog(actions, Limit(t));
    var log := UnannouncedLog(actions[0], actions[1]);
    LogsExact(f, t, validImage, log);
    DisciplinedExactly(actions, Limit(t), log);
  }

  /** What Postgres-backed workers can leave behind for the first working task, Kubernetes-backed
      workers can too. */
  lemma DisciplinedCanBeLeft(f: string, t: Template, validImage: string -> bool, log: seq<Report>)
    requires f != "" && Controller.Rendered(t, validImage)
    requires Disciplined(ListOf(t), log) && |log| <= 2 * Limit(t)
    ensures CanLeave(f, t, validImage, log)
  {
    TaskHasOneOwner(t, validImage);
    DisciplinedIsWorkerLog(ListOf(t), Limit(t), log);
    LogsExact(f, t, validImage, log);
  }
}
