/** Which workflows the Kubernetes backend can bring to SUCCESS, and what it makes of the logs that
    Postgres-backed workers leave behind. */
module KubeCompletion {
  import opened Nested
  import opened Types
  import Validator
  import opened Discipline
  import opened Progress
  import WorkerLoop
  import Fleet
  import opened KubeStatus
  import KubeServer
  import opened Controller
  import opened KubeRuns
  import opened Simulation

  /** Exactly one task has actions. */
  predicate OneWorkingTask(lens: seq<nat>) {
    exists i :: 0 <= i < |lens| && lens[i] > 0 && forall i' :: 0 <= i' < |lens| && i' != i ==> lens[i'] == 0
  }

  lemma OneWorkingTaskIsFirstBlock(lens: seq<nat>)
    requires OneWorkingTask(lens)
    ensures FirstBlock(lens) == Sum(lens) > 0
  {
  }

  // ---------------------------------------------------------------- runs from a template

  /** Create the workflow, then send the reports one after the other. */
  function RunOf(t: Template, reports: seq<Report>, clock: nat -> int): seq<Step> {
    if reports == [] then [Pass(0, Some(t))]
    else RunOf(t, reports[..|reports| - 1], clock) + [Send(reports[|reports| - 1], clock(|reports| - 1))]
  }

  lemma CreatedByPass(t: Template, validImage: string -> bool)
    requires Rendered(t, validImage)
    ensures After([Pass(0, Some(t))], validImage) == System(Created(t), [])
  {
  }

  lemma ReplayFront(t: Template, front: seq<Report>, last: Report, clock: nat -> int) returns (st: Status)
    requires KubeReplay(t, front + [last], clock).Some?
    ensures KubeReplay(t, front, clock) == Some(st)
  {
    assert (front + [last])[..|front|] == front;
    st := KubeReplay(t, front, clock).value;
  }

  lemma {:induction false} ReplayIsRun(t: Template, validImage: string -> bool, reports: seq<Report>, clock: nat -> int)
    requires Rendered(t, validImage) && KubeReplay(t, reports, clock).Some?
    ensures After(RunOf(t, reports, clock), validImage) == System(KubeReplay(t, reports, clock).value, reports)
  {
    if reports == [] {
      CreatedByPass(t, validImage);
    } else {
      var front, last := reports[..|reports| - 1], reports[|reports| - 1];
      assert reports == front + [last];
      var st := ReplayFront(t, front, last, clock);
      ReplayIsRun(t, validImage, front, clock);
      AfterSnoc(RunOf(t, front, clock), Send(last, clock(|front|)), validImage);
      SendOne(t, validImage, front, last, clock, st);
    }
  }

  lemma SendOne(t: Template, validImage: string -> bool, front: seq<Report>, last: Report, clock: nat -> int,
                st: Status)
    requires KubeReplay(t, front, clock) == Some(st) && KubeReplay(t, front + [last], clock).Some?
    ensures Next(System(st, front), Send(last, clock(|front|)), validImage) ==
            System(KubeReplay(t, front + [last], clock).value, front + [last])
  {
    KubeReplayStep(t, front, last, clock, st);
  }

  lemma {:induction false} RunOfStart(t: Template, reports: seq<Report>, clock: nat -> int) returns (rest: seq<Step>)
    ensures RunOf(t, reports, clock) == [Pass(0, Some(t))] + rest
  {
    if reports == [] {
      rest := [];
    } else {
      rest := RunOfStart(t, reports[..|reports| - 1], clock);
      rest := rest + [Send(reports[|reports| - 1], clock(|reports| - 1))];
    }
  }

  lemma {:induction false} ShapeKept(t: Template, validImage: string -> bool, steps: seq<Step>)
    requires Rendered(t, validImage)
    ensures After([Pass(0, Some(t))] + steps, validImage).status.state.Some?
    ensures Lens(After([Pass(0, Some(t))] + steps, validImage).status.tasks) == TemplateLens(t.tasks)
  {
    var first := [Pass(0, Some(t))];
    if steps == [] {
      assert first + steps == first;
      CreatedByPass(t, validImage);
      NewTasksShape(t.tasks);
    } else {
      var front, last := steps[..|steps| - 1], steps[|steps| - 1];
      ShapeKept(t, validImage, front);
      assert first + steps == (first + front) + [last];
      AfterSnoc(first + front, last, validImage);
      RunKeeps(first + front, validImage);
      StepMoves(After(first + front, validImage), last, validImage);
    }
  }

  /** The events of a workflow on which everything succeeds. */
  function FullLog(actions: seq<WorkflowAction>): seq<Report> {
    seq(2 * |actions|, j requires 0 <= j < 2 * |actions| =>
      WorkerLoop.StatusReport(actions[j / 2], if j % 2 == 0 then Running else Success))
  }

  lemma FullLogComplete(actions: seq<WorkflowAction>)
    ensures Complete(actions, FullLog(actions))
  {
  }

  predicate Succeeds(t: Template, steps: seq<Step>, validImage: string -> bool) {
    After([Pass(0, Some(t))] + steps, validImage).status.state == Some(Success)
  }

  lemma {:induction false} OneTaskSucceeds(t: Template, validImage: string -> bool, actions: seq<WorkflowAction>)
      returns (steps: seq<Step>)
    requires Rendered(t, validImage) && Validator.Flattens(t.tasks, actions) && OneWorkingTask(TemplateLens(t.tasks))
    ensures Succeeds(t, steps, validImage)
  {
    var log := FullLog(actions);
    var clock := (n: nat) => 0;
    OneWorkingTaskIsFirstBlock(TemplateLens(t.tasks));
    FullLogComplete(actions);
    Validator.ValidIsWellNamed(t, validImage, actions);
    RowAfterIsReplay(actions, log);
    BackendsAgree(t, validImage, actions, log, clock);
    assert WorkflowState(RowAfter(actions, log)) == Success;
    ReplayIsRun(t, validImage, log, clock);
    steps := RunOfStart(t, log, clock);
  }

  /** Some run brings a template's workflow to SUCCESS iff exactly one of its tasks has actions. */
  lemma SuccessReachableExactly(t: Template, validImage: string -> bool, actions: seq<WorkflowAction>)
    requires Rendered(t, validImage) && Validator.Flattens(t.tasks, actions)
    ensures (exists steps :: Succeeds(t, steps, validImage)) <==> OneWorkingTask(TemplateLens(t.tasks))
  {
    var lens := TemplateLens(t.tasks);
    if OneWorkingTask(lens) {
      var steps := OneTaskSucceeds(t, validImage, actions);
    } else {
      forall steps
        ensures !Succeeds(t, steps, validImage)
      {
        ShapeKept(t, validImage, steps);
        var run := [Pass(0, Some(t))] + steps;
        var st := After(run, validImage).status;
        assert |st.tasks| == |lens| && forall i :: 0 <= i < |lens| ==> |st.tasks[i].actions| == lens[i];
        if i, i' :| 0 <= i < i' < |lens| && lens[i] > 0 && lens[i'] > 0 {
          TwoTasksNeverSucceed(run, validImage, i, i');
        } else {
          NoneWorking(lens);
          RunKeeps(run, validImage);
        }
      }
    }
  }

  lemma NoneWorking(lens: seq<nat>)
    requires forall i, i' :: 0 <= i < i' < |lens| ==> !(lens[i] > 0 && lens[i'] > 0)
    ensures OneWorkingTask(lens) || Sum(lens) == 0
  {
  }

  // ---------------------------------------------------------------- reports on the first working task

  /** The first task that has actions. */
  function FirstTask(t: Template): nat
    requires Sum(TemplateLens(t.tasks)) > 0
  {
    Locate(TemplateLens(t.tasks), 0).0
  }

  /** Report `r` names action `j` of that task. */
  predicate NamesWorking(t: Template, r: Report, j: nat) {
    && Sum(TemplateLens(t.tasks)) > 0 && j < |t.tasks[FirstTask(t)].actions|
    && r.taskName == t.tasks[FirstTask(t)].name && r.actionName == t.tasks[FirstTask(t)].actions[j].name
  }

  /** The workflow follows the template, and the current action is action `j` of that task. */
  predicate AtWorking(t: Template, s: System, j: nat) {
    && Inv(s.status) && Follows(s.status.tasks, t) && Sum(TemplateLens(t.tasks)) > 0
    && j < |t.tasks[FirstTask(t)].actions| && Done(s.status.tasks) == j
  }

  lemma WorkingApplies(t: Template, s: System, j: nat, r: Report)
    requires AtWorking(t, s, j) && NamesWorking(t, r, j) && r.status != Pending
    ensures KubeServer.Applies(s.status, r)
  {
    var tasks := s.status.tasks;
    assert Lens(tasks) == TemplateLens(t.tasks);
    LocateUnique(Lens(tasks), FirstTask(t), j);
    assert Coord(tasks, j) == (FirstTask(t), j);
  }

  /** A report on it is then accepted. */
  lemma WorkingTakes(t: Template, s: System, j: nat, r: Report, now: int, validImage: string -> bool)
      returns (s': System)
    requires AtWorking(t, s, j) && NamesWorking(t, r, j) && r.status != Pending
    ensures s' == Next(s, Send(r, now), validImage) && s'.log == s.log + [r]
    ensures Inv(s'.status) && Follows(s'.status.tasks, t) && s'.status.globalTimeout == s.status.globalTimeout
    ensures r.status != Success ==> s'.status.state == Some(r.status)
    ensures Done(s'.status.tasks) == j + if r.status == Success then 1 else 0
    ensures r.status == Running ==> At(s'.status.tasks, j).startedAt == Some(now)
    ensures At(s'.status.tasks, j) == KubeServer.Mark(At(s.status.tasks, j), r.status, now)
  {
    WorkingApplies(t, s, j, r);
    var st := KubeServer.Decide(s.status, r, now);
    assert st.Accepted?
           && KubeServer.Effect(s.status, r, now, st.status) by { KubeServer.DecideExact(s.status, r, now); }
    var st' := st.status;
    s' := System(st', s.log + [r]);
    assert Inv(st') by { ReportKeeps(s.status, r, now); }
    assert Follows(st'.tasks, t) by { EffectFollows(s.status, r, now, st', t); }
    ReportMoves(s.status, r, now);
  }

  lemma CreatedAtWorking(t: Template, validImage: string -> bool)
    requires Rendered(t, validImage) && Sum(TemplateLens(t.tasks)) > 0
    ensures AtWorking(t, System(Created(t), []), 0)
  {
    CreateKeeps(t, validImage);
    NewTasksShape(t.tasks);
  }

  /** The state after creation and one more step. */
  lemma AfterCreated(t: Template, validImage: string -> bool, step: Step)
    requires Rendered(t, validImage)
    ensures After([Pass(0, Some(t))] + [step], validImage) == Next(System(Created(t), []), step, validImage)
  {
    CreatedByPass(t, validImage);
    AfterSnoc([Pass(0, Some(t))], step, validImage);
  }

  /** And two more steps. */
  lemma AfterCreation(t: Template, validImage: string -> bool, step1: Step, step2: Step)
    requires Rendered(t, validImage)
    ensures var s := Next(System(Created(t), []), step1, validImage);
            && After([Pass(0, Some(t))] + [step1], validImage) == s
            && After([Pass(0, Some(t))] + [step1] + [step2], validImage) == Next(s, step2, validImage)
  {
    AfterCreated(t, validImage, step1);
    AfterSnoc([Pass(0, Some(t))] + [step1], step2, validImage);
  }

  /** A report on the first action of a new workflow. */
  lemma SendFirst(t: Template, validImage: string -> bool, r: Report, now: int) returns (s: System)
    requires Rendered(t, validImage) && NamesWorking(t, r, 0) && r.status != Pending
    ensures s == Next(System(Created(t), []), Send(r, now), validImage) && s.log == [r]
    ensures Inv(s.status) && Follows(s.status.tasks, t) && s.status.globalTimeout == t.globalTimeout
    ensures Done(s.status.tasks) == if r.status == Success then 1 else 0
    ensures r.status != Success ==> s.status.state == Some(r.status)
    ensures r.status == Running ==> At(s.status.tasks, 0).startedAt == Some(now)
    ensures At(s.status.tasks, 0).status == r.status
            && At(s.status.tasks, 0).timeout == At(NewTasks(t.tasks), 0).timeout
  {
    CreatedAtWorking(t, validImage);
    s := WorkingTakes(t, System(Created(t), []), 0, r, now, validImage);
  }

  // ---------------------------------------------------------------- failures are not final

  /** For every template with an action: a run brings the workflow to FAILED, or to TIMEOUT, by a
      report on its first action, and one more report brings it back to RUNNING. */
  lemma FailureIsNotFinal(t: Template, validImage: string -> bool, failure: Report, again: Report)
    requires Rendered(t, validImage) && NamesWorking(t, failure, 0) && NamesWorking(t, again, 0)
    requires (failure.status == Failed || failure.status == Timeout) && again.status == Running
    ensures After([Pass(0, Some(t))] + [Send(failure, 0)], validImage).status.state == Some(failure.status)
    ensures After([Pass(0, Some(t))] + [Send(failure, 0)] + [Send(again, 0)], validImage).status.state == Some(Running)
  {
    AfterCreation(t, validImage, Send(failure, 0), Send(again, 0));
    var s1 := SendFirst(t, validImage, failure, 0);
    var s2 := WorkingTakes(t, s1, 0, again, 0, validImage);
  }

  /** A pass beyond the global deadline. */
  lemma LatePass(st: Status, late: int)
    requires Inv(st) && st.state == Some(Running) && StartTime(st.tasks) == Some(0)
             && late > st.globalTimeout * KubeServer.SECOND
    ensures Reconcile(st, late, None).state == Some(Timeout)
            && Reconcile(st, late, None).globalTimeout == st.globalTimeout
    ensures Lens(Reconcile(st, late, None).tasks) == Lens(st.tasks)
            && Done(Reconcile(st, late, None).tasks) == Done(st.tasks)
    ensures Inv(Reconcile(st, late, None))
  {
    PassMoves(st.tasks, late);
    PassKeeps(st, late);
  }

  lemma PassFollows(st: Status, now: int, t: Template)
    requires Follows(st.tasks, t)
    ensures Follows(TimeoutPass(st, now).tasks, t)
  {
    PassFlat(st.tasks, now);
  }

  /** An announced workflow is timed out by a late pass, and stays at its first action. */
  lemma TimedOut(t: Template, validImage: string -> bool, s: System, late: int) returns (s': System)
    requires AtWorking(t, s, 0) && s.status.state == Some(Running) && |t.tasks[0].actions| > 0
    requires At(s.status.tasks, 0).startedAt == Some(0) && late > s.status.globalTimeout * KubeServer.SECOND
    ensures s' == Next(s, Pass(late, None), validImage) && s'.status.state == Some(Timeout) && AtWorking(t, s', 0)
  {
    FirstCoord(s.status.tasks);
    LatePass(s.status, late);
    PassFollows(s.status, late, t);
    s' := s.(status := Reconcile(s.status, late, None));
  }

  /** The same for a timeout by the controller, for every template whose first task has actions: the
      announced workflow is timed out by a late pass, and a further report makes it RUNNING again. */
  lemma TimeoutIsNotFinal(t: Template, validImage: string -> bool, start: Report, late: int)
    requires Rendered(t, validImage) && |t.tasks[0].actions| > 0 && NamesWorking(t, start, 0) && start.status == Running
    requires late > t.globalTimeout * KubeServer.SECOND
    ensures var steps := [Pass(0, Some(t))] + [Send(start, 0)] + [Pass(late, None)];
            && After(steps, validImage).status.state == Some(Timeout)
            && After(steps + [Send(start, late)], validImage).status.state == Some(Running)
  {
    AfterCreation(t, validImage, Send(start, 0), Pass(late, None));
    AfterSnoc([Pass(0, Some(t))] + [Send(start, 0)] + [Pass(late, None)], Send(start, late), validImage);
    var s1 := SendFirst(t, validImage, start, 0);
    var s2 := TimedOut(t, validImage, s1, late);
    var s3 := WorkingTakes(t, s2, 0, start, late, validImage);
  }

  // ---------------------------------------------------------------- deadlines and seconds

  /** For every template whose first task has actions: after its first action was announced at `start`,
      a pass times the workflow out iff more than the template's global timeout or more than the action's
      timeout has passed. */
  lemma DeadlineExact(t: Template, validImage: string -> bool, r: Report, start: int, now: int)
    requires Rendered(t, validImage) && |t.tasks[0].actions| > 0 && NamesWorking(t, r, 0) && r.status == Running
    ensures var st := After([Pass(0, Some(t))] + [Send(r, start)] + [Pass(now, None)], validImage).status;
            && (st.state == Some(Timeout) <==>
                || now > start + t.globalTimeout * 1_000_000_000
                || now > start + t.tasks[0].actions[0].timeout * 1_000_000_000)
            && (st.state == Some(Running) <==> st.state != Some(Timeout))
  {
    AfterCreation(t, validImage, Send(r, start), Pass(now, None));
    var s := SendFirst(t, validImage, r, start);
    FirstTimeout(t, s.status.tasks);
    AfterCreated(t, validImage, Send(r, start));
    PassVerdict([Pass(0, Some(t))] + [Send(r, start)], validImage, s.status, now, None);
  }

  lemma FirstTimeout(t: Template, tasks: seq<Task>)
    requires |t.tasks| > 0 && |t.tasks[0].actions| > 0 && Follows(tasks, t)
    ensures 0 < Total(tasks) && StartTime(tasks) == At(tasks, 0).startedAt && Coord(tasks, 0) == (0, 0)
    ensures Total(NewTasks(t.tasks)) > 0 && At(NewTasks(t.tasks), 0).timeout == t.tasks[0].actions[0].timeout
  {
    FirstCoord(tasks);
    NewTasksShape(t.tasks);
    LocateUnique(TemplateLens(t.tasks), 0, 0);
  }

  /** For every template with an action: a result `now - start` nanoseconds after the announcement leaves
      the whole seconds between them. */
  lemma SecondsExact(t: Template, validImage: string -> bool, r: Report, start: int, result: Report, now: int)
    requires Rendered(t, validImage) && NamesWorking(t, r, 0) && r.status == Running && now >= start
    requires NamesWorking(t, result, 0) && IsResult(result.status)
    ensures var tasks := After([Pass(0, Some(t))] + [Send(r, start)] + [Send(result, now)], validImage).status.tasks;
            && Total(tasks) > 0
            && At(tasks, 0).seconds * 1_000_000_000 <= now - start < (At(tasks, 0).seconds + 1) * 1_000_000_000
  {
    AfterCreation(t, validImage, Send(r, start), Send(result, now));
    var s1 := SendFirst(t, validImage, r, start);
    var s2 := WorkingTakes(t, s1, 0, result, now, validImage);
    KubeServer.MarkExact(At(s1.status.tasks, 0), result.status, now);
  }

  // ---------------------------------------------------------------- a missing start time

  /** A report on the second action does not name the first. */
  lemma OtherAction(t: Template, validImage: string -> bool, tasks: seq<Task>, r: Report)
    requires Rendered(t, validImage) && |t.tasks[0].actions| >= 2 && Follows(tasks, t) && NamesWorking(t, r, 1)
    ensures !NamesFirst(tasks, r)
  {
    LocateUnique(TemplateLens(t.tasks), 0, 0);
  }

  lemma UntimedLog(steps: seq<Step>, validImage: string -> bool, s: System, r0: Report, r1: Report)
    requires s == After(steps, validImage) && s.log == [r0] + [r1]
    requires r0.status != Running && !NamesFirst(s.status.tasks, r1)
    ensures StartTime(s.status.tasks).None?
  {
    StartTimeExact(steps, validImage);
  }

  /** Clients that skip the first announcement can leave a RUNNING workflow without a start time, for
      every template whose first task has two actions; the next pass then dereferences nil. */
  lemma StartTimeCanBeMissing(t: Template, validImage: string -> bool, r0: Report, r1: Report)
    requires Rendered(t, validImage) && |t.tasks[0].actions| >= 2
    requires NamesWorking(t, r0, 0) && r0.status == Success && NamesWorking(t, r1, 1) && r1.status == Running
    ensures var st := After([Pass(0, Some(t))] + [Send(r0, 0)] + [Send(r1, 0)], validImage).status;
            st.state == Some(Running) && StartTime(st.tasks).None?
  {
    AfterCreation(t, validImage, Send(r0, 0), Send(r1, 0));
    var s1 := SendFirst(t, validImage, r0, 0);
    var s2 := WorkingTakes(t, s1, 1, r1, 0, validImage);
    OtherAction(t, validImage, s2.status.tasks, r1);
    UntimedLog([Pass(0, Some(t))] + [Send(r0, 0)] + [Send(r1, 0)], validImage, s2, r0, r1);
  }

  /** If disciplined workers left it RUNNING, the workflow has a start time. */
  predicate Startable(actions: seq<WorkflowAction>, s: System) {
    Disciplined(actions, s.log) && s.status.state == Some(Running) ==> StartTime(s.status.tasks).Some?
  }

  predicate StartsTimed(t: Template, validImage: string -> bool, actions: seq<WorkflowAction>, steps: seq<Step>) {
    Startable(actions, After([Pass(0, Some(t))] + steps, validImage))
  }

  lemma FirstTaskTimed(t: Template, validImage: string -> bool, actions: seq<WorkflowAction>, steps: seq<Step>)
    requires Rendered(t, validImage) && (|t.tasks[0].actions| > 0 || Sum(TemplateLens(t.tasks)) == 0)
    ensures StartsTimed(t, validImage, actions, steps)
  {
    var run := [Pass(0, Some(t))] + steps;
    var s := After(run, validImage);
    ShapeKept(t, validImage, steps);
    assert |s.status.tasks| == |t.tasks| && |s.status.tasks[0].actions| == |t.tasks[0].actions|;
    if Disciplined(actions, s.log) && s.status.state == Some(Running) {
      assert s.log != [] ==> DisciplinedEvent(actions, s.log, 0);
      if Sum(TemplateLens(t.tasks)) == 0 {
        assert SuccessExact(s.status) by { RunKeeps(run, validImage); }
        assert false;
      } else {
        StartTimeDefined(run, validImage);
      }
    }
  }

  lemma Untimed(t: Template, actions: seq<WorkflowAction>, s: System, r: Report)
    requires |t.tasks| > 0 && |t.tasks[0].actions| == 0 && Follows(s.status.tasks, t)
    requires actions != [] && r == WorkerLoop.StatusReport(actions[0], Running)
    requires s.log == [r] && s.status.state == Some(Running)
    ensures !Startable(actions, s)
  {
    assert DisciplinedEvent(actions, [r], 0);
    assert |s.status.tasks[0].actions| == TemplateLens(t.tasks)[0];
  }

  lemma EmptyFirstTaskNext(t: Template, validImage: string -> bool, actions: seq<WorkflowAction>, r: Report)
      returns (s: System)
    requires Rendered(t, validImage) && Validator.Flattens(t.tasks, actions)
    requires |t.tasks[0].actions| == 0 && Sum(TemplateLens(t.tasks)) > 0
             && r == WorkerLoop.StatusReport(actions[0], Running)
    ensures s == Next(System(Created(t), []), Send(r, 0), validImage) && !Startable(actions, s)
  {
    NamesMatch(t, actions, NewTasks(t.tasks), 0);
    s := SendFirst(t, validImage, r, 0);
    Untimed(t, actions, s, r);
  }

  /** A worker that announces the first action of a workflow whose first task is empty leaves it
      RUNNING without a start time. */
  lemma EmptyFirstTaskUntimed(t: Template, validImage: string -> bool, actions: seq<WorkflowAction>)
    requires Rendered(t, validImage) && Validator.Flattens(t.tasks, actions)
    requires |t.tasks[0].actions| == 0 && Sum(TemplateLens(t.tasks)) > 0
    ensures !StartsTimed(t, validImage, actions, [Send(WorkerLoop.StatusReport(actions[0], Running), 0)])
  {
    var r := WorkerLoop.StatusReport(actions[0], Running);
    var s := EmptyFirstTaskNext(t, validImage, actions, r);
    AfterCreated(t, validImage, Send(r, 0));
  }

  /** Disciplined workers never leave a RUNNING workflow without a start time iff the first task has
      actions, or no task has. */
  lemma StartTimeGuaranteedExactly(t: Template, validImage: string -> bool, actions: seq<WorkflowAction>)
    requires Rendered(t, validImage) && Validator.Flattens(t.tasks, actions)
    ensures (forall steps :: StartsTimed(t, validImage, actions, steps)) <==>
              |t.tasks[0].actions| > 0 || Sum(TemplateLens(t.tasks)) == 0
  {
    if |t.tasks[0].actions| > 0 || Sum(TemplateLens(t.tasks)) == 0 {
      forall steps
        ensures StartsTimed(t, validImage, actions, steps)
      {
        FirstTaskTimed(t, validImage, actions, steps);
      }
    } else {
      EmptyFirstTaskUntimed(t, validImage, actions);
    }
  }

  // ---------------------------------------------------------------- worker logs on Kubernetes

  /** The log that any fleet of Postgres-backed workers leaves for a one-task workflow, sent to the
      Kubernetes backend at any instants, is accepted throughout and leads to the same state. */
  lemma FleetLogOnKube(steps: seq<Fleet.Step>, f: string, t: Template, validImage: string -> bool, clock: nat -> int)
    requires f in Fleet.After(steps).table
    requires var wf := Fleet.After(steps).table[f];
             Rendered(t, validImage) && Validator.Flattens(t.tasks, wf.actions) && OneWorkingTask(TemplateLens(t.tasks))
    ensures var wf := Fleet.After(steps).table[f];
            KubeReplay(t, wf.log, clock).Some? && Agree(wf.row, KubeReplay(t, wf.log, clock).value)
  {
    Fleet.EveryLogIsDisciplined(steps, f);
    OneWorkingTaskIsFirstBlock(TemplateLens(t.tasks));
    var wf := Fleet.After(steps).table[f];
    BackendsAgree(t, validImage, wf.actions, wf.log, clock);
  }
}
