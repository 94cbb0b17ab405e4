/** Every run of the Kubernetes backend: reports by arbitrary clients and reconcile passes, in any
    order and at any instants. */
module KubeRuns {
  import opened Nested
  import opened Types
  import opened KubeStatus
  import opened KubeServer
  import opened Controller

  /** The stored object and the reports accepted so far. */
  datatype System = System(status: Status, log: seq<Report>)

  datatype Step =
    | Send(req: Report, now: int)
    | Pass(now: int, rendered: Option<Template>)

  /** An object nobody has reconciled yet. */
  function Initial(): System {
    System(Status(None, 0, []), [])
  }

  /** One step.  A template that does not pass validation does not render. */
  function Next(s: System, step: Step, validImage: string -> bool): System {
    match step
    case Send(req, now) =>
      (match Decide(s.status, req, now)
       case Accepted(st) => System(st, s.log + [req])
       case Rejected(_) => s)
    case Pass(now, rendered) =>
      var valid := rendered.Some? && Rendered(rendered.value, validImage);
      s.(status := Reconcile(s.status, now, if valid then rendered else None))
  }

  function After(steps: seq<Step>, validImage: string -> bool): System {
    if steps == [] then Initial() else Next(After(steps[..|steps| - 1], validImage), steps[|steps| - 1], validImage)
  }

  lemma AfterSnoc(steps: seq<Step>, step: Step, validImage: string -> bool)
    ensures After(steps + [step], validImage) == Next(After(steps, validImage), step, validImage)
  {
    assert (steps + [step])[..|steps|] == steps;
  }

  // ---------------------------------------------------------------- the prefix invariant

  /** `k` SUCCESS, then at most one action of any status, then only PENDING. */
  predicate Prefix(tasks: seq<Task>) {
    forall j :: Done(tasks) < j < Total(tasks) ==> At(tasks, j).status == Pending
  }

  /** Completion has not got past the end of the first task that has actions. */
  predicate WithinFirstTask(tasks: seq<Task>) {
    forall i :: 0 <= i <= |tasks| && Offset(Lens(tasks), i) > 0 ==> Done(tasks) <= Offset(Lens(tasks), i)
  }

  /** SUCCESS iff all actions are; without actions the state never leaves PENDING. */
  predicate SuccessExact(st: Status) {
    st.state.Some? ==>
      if Total(st.tasks) > 0 then st.state == Some(Success) <==> Done(st.tasks) == Total(st.tasks)
      else st.state == Some(Pending)
  }

  predicate Inv(st: Status) {
    && (st.state.None? ==> st.tasks == [])
    && Named(st.tasks) && Prefix(st.tasks) && WithinFirstTask(st.tasks) && SuccessExact(st)
  }

  /** An accepted report moves completion by one iff it is a SUCCESS, and never back. */
  lemma ReportMoves(st: Status, req: Report, now: int)
    requires Named(st.tasks) && Prefix(st.tasks) && Decide(st, req, now).Accepted?
    ensures var tasks' := Decide(st, req, now).status.tasks;
            && Lens(tasks') == Lens(st.tasks) && Prefix(tasks')
            && Done(tasks') == Done(st.tasks) + if req.status == Success then 1 else 0
  {
    DecideExact(st, req, now);
    var st' := Decide(st, req, now).status;
    var k := Done(st.tasks);
    assert At(st'.tasks, k).status == req.status;
    DoneUnique(st'.tasks, if req.status == Success then k + 1 else k);
  }

  lemma PutNamed(tasks: seq<Task>, c: (nat, nat), a: Action)
    requires Named(tasks) && c.0 < |tasks| && c.1 < |tasks[c.0].actions| && a.name == tasks[c.0].actions[c.1].name
    ensures Named(Put(tasks, c, a))
  {
  }

  lemma ReportWithin(st: Status, req: Report, now: int)
    requires Inv(st) && Decide(st, req, now).Accepted?
    ensures WithinFirstTask(Decide(st, req, now).status.tasks)
  {
    DecideExact(st, req, now);
    ReportMoves(st, req, now);
    var tasks' := Decide(st, req, now).status.tasks;
    var lens := Lens(st.tasks);
    var c := Coord(st.tasks, Done(st.tasks));
    OffsetStep(lens, c.0);
    forall i | 0 <= i <= |tasks'| && Offset(Lens(tasks'), i) > 0
      ensures Done(tasks') <= Offset(Lens(tasks'), i)
    {
      if i <= c.0 {
        OffsetMonotone(lens, i, c.0);
      } else {
        OffsetMonotone(lens, c.0 + 1, i);
      }
    }
  }

  lemma ReportKeeps(st: Status, req: Report, now: int)
    requires Inv(st) && Decide(st, req, now).Accepted?
    ensures Inv(Decide(st, req, now).status)
  {
    DecideExact(st, req, now);
    ReportMoves(st, req, now);
    ReportWithin(st, req, now);
    var k := Done(st.tasks);
    PutNamed(st.tasks, Coord(st.tasks, k), Mark(At(st.tasks, k), req.status, now));
  }

  /** A timeout pass leaves completion where it is. */
  lemma PassMoves(tasks: seq<Task>, now: int)
    ensures var tasks' := ExpireTasks(tasks, |tasks|, now);
            Lens(tasks') == Lens(tasks) && Done(tasks') == Done(tasks) && (Prefix(tasks) ==> Prefix(tasks'))
  {
    PassFlat(tasks, now);
    DoneUnique(ExpireTasks(tasks, |tasks|, now), Done(tasks));
  }

  lemma PassNamed(tasks: seq<Task>, now: int)
    requires Named(tasks)
    ensures Named(ExpireTasks(tasks, |tasks|, now))
  {
    var tasks' := ExpireTasks(tasks, |tasks|, now);
    assert forall i :: 0 <= i < |tasks| ==>
             tasks'[i].name == tasks[i].name && |tasks'[i].actions| == |tasks[i].actions|;
    assert forall i, j :: 0 <= i < |tasks| && 0 <= j < |tasks[i].actions| ==>
             tasks'[i].actions[j].name == tasks[i].actions[j].name;
  }

  lemma PassKeeps(st: Status, now: int)
    requires Inv(st) && st.state == Some(Running)
    ensures Inv(TimeoutPass(st, now))
  {
    PassMoves(st.tasks, now);
    PassNamed(st.tasks, now);
    var tasks' := TimeoutPass(st, now).tasks;
    assert Total(tasks') == Total(st.tasks);
    forall i | 0 <= i <= |tasks'| && Offset(Lens(tasks'), i) > 0
      ensures Done(tasks') <= Offset(Lens(tasks'), i)
    {
      assert Offset(Lens(st.tasks), i) > 0;
    }
  }

  lemma CreateKeeps(t: Template, validImage: string -> bool)
    requires Rendered(t, validImage)
    ensures Inv(Created(t))
    ensures Done(NewTasks(t.tasks)) == 0
  {
    NewTasksShape(t.tasks);
    DoneUnique(NewTasks(t.tasks), 0);
    assert Named(NewTasks(t.tasks)) by { CreatedNamed(t, validImage); }
  }

  lemma CreatedNamed(t: Template, validImage: string -> bool)
    requires Rendered(t, validImage)
    ensures Named(NewTasks(t.tasks))
  {
  }

  lemma StepKeeps(s: System, step: Step, validImage: string -> bool)
    requires Inv(s.status)
    ensures Inv(Next(s, step, validImage).status)
  {
    match step
    case Send(req, now) =>
      if Decide(s.status, req, now).Accepted? {
        ReportKeeps(s.status, req, now);
      }
    case Pass(now, rendered) =>
      if s.status.state.None? && rendered.Some? && Rendered(rendered.value, validImage) {
        CreateKeeps(rendered.value, validImage);
      } else if s.status.state == Some(Running) {
        PassKeeps(s.status, now);
      }
  }

  lemma {:induction false} RunKeeps(steps: seq<Step>, validImage: string -> bool)
    ensures Inv(After(steps, validImage).status)
  {
    if steps == [] {
      DoneUnique([], 0);
    } else {
      RunKeeps(steps[..|steps| - 1], validImage);
      StepKeeps(After(steps[..|steps| - 1], validImage), steps[|steps| - 1], validImage);
    }
  }

  // ---------------------------------------------------------------- theorems

  /** No step takes completion back or further than by one, which only an accepted report does. */
  lemma StepMoves(s: System, step: Step, validImage: string -> bool)
    requires Inv(s.status) && s.status.state.Some?
    ensures var s' := Next(s, step, validImage);
            && s'.status.state.Some? && Lens(s'.status.tasks) == Lens(s.status.tasks)
            && Done(s.status.tasks) <= Done(s'.status.tasks) <= Done(s.status.tasks) + (|s'.log| - |s.log|)
  {
    match step
    case Send(req, now) => SendMoves(s, req, now, validImage);
    case Pass(now, rendered) =>
      ReconcileMoves(s.status, now, if rendered.Some? && Rendered(rendered.value, validImage) then rendered else None);
  }

  lemma ReconcileMoves(st: Status, now: int, rendered: Option<Template>)
    requires st.state.Some?
    ensures var st' := Reconcile(st, now, rendered);
            st'.state.Some? && Lens(st'.tasks) == Lens(st.tasks) && Done(st'.tasks) == Done(st.tasks)
  {
    PassMoves(st.tasks, now);
  }

  lemma SendMoves(s: System, req: Report, now: int, validImage: string -> bool)
    requires Inv(s.status) && s.status.state.Some?
    ensures var s' := Next(s, Send(req, now), validImage);
            && s'.status.state.Some? && Lens(s'.status.tasks) == Lens(s.status.tasks)
            && Done(s.status.tasks) <= Done(s'.status.tasks) <= Done(s.status.tasks) + (|s'.log| - |s.log|)
  {
    if Decide(s.status, req, now).Accepted? {
      ReportMoves(s.status, req, now);
      assert Effect(s.status, req, now, Decide(s.status, req, now).status) by { DecideExact(s.status, req, now); }
    }
  }

  /** In every run: the statuses are a SUCCESS prefix, one action of any status, and PENDING;
      completion stays within the first task that has actions; and it never goes back, nor further
      than by one, which only an accepted report does. */
  lemma PrefixInEveryRun(steps: seq<Step>, step: Step, validImage: string -> bool)
    ensures Prefix(After(steps, validImage).status.tasks) && WithinFirstTask(After(steps, validImage).status.tasks)
    ensures var s := After(steps, validImage);
            var s' := Next(s, step, validImage);
            s.status.state.Some? ==>
              && Lens(s'.status.tasks) == Lens(s.status.tasks)
              && Done(s.status.tasks) <= Done(s'.status.tasks) <= Done(s.status.tasks) + (|s'.log| - |s.log|)
  {
    RunKeeps(steps, validImage);
    if After(steps, validImage).status.state.Some? {
      StepMoves(After(steps, validImage), step, validImage);
    }
  }

  /** In every run, the state of a workflow with actions is SUCCESS iff every action is, and from
      then on nothing changes. */
  lemma SuccessIsExactAndAbsorbing(steps: seq<Step>, step: Step, validImage: string -> bool)
    requires Total(After(steps, validImage).status.tasks) > 0
    ensures var s := After(steps, validImage);
            && (s.status.state == Some(Success) <==>
                forall k :: 0 <= k < Total(s.status.tasks) ==> At(s.status.tasks, k).status == Success)
            && (s.status.state == Some(Success) ==> Next(s, step, validImage) == s)
  {
    RunKeeps(steps, validImage);
    var s := After(steps, validImage);
    ScanAgreesWithFlat(s.status.tasks);
    if step.Send? {
      DecideExact(s.status, step.req, step.now);
    }
  }

  lemma SecondBlock(lens: seq<nat>, i: nat, i': nat)
    requires i < i' < |lens| && lens[i] > 0 && lens[i'] > 0
    ensures 0 < Offset(lens, i') < Sum(lens)
  {
    OffsetStep(lens, i);
    OffsetMonotone(lens, i + 1, i');
    OffsetStep(lens, i');
    OffsetMonotone(lens, i' + 1, |lens|);
    OffsetWhole(lens);
  }

  /** If two tasks have actions, no run completes all actions, and none reaches SUCCESS. */
  lemma TwoTasksNeverSucceed(steps: seq<Step>, validImage: string -> bool, i: nat, i': nat)
    requires i < i' < |After(steps, validImage).status.tasks|
    requires |After(steps, validImage).status.tasks[i].actions| > 0
             && |After(steps, validImage).status.tasks[i'].actions| > 0
    ensures After(steps, validImage).status.state != Some(Success)
    ensures Done(After(steps, validImage).status.tasks) < Total(After(steps, validImage).status.tasks)
  {
    var st := After(steps, validImage).status;
    SecondBlock(Lens(st.tasks), i, i');
    assert WithinFirstTask(st.tasks) && SuccessExact(st) by { RunKeeps(steps, validImage); }
    assert Done(st.tasks) <= Offset(Lens(st.tasks), i');
  }

  /** A report that names the current action and is not PENDING is applied iff no action lies in an
      earlier task; it is then applied to that action and no other. */
  lemma LocationExact(steps: seq<Step>, validImage: string -> bool, req: Report, now: int)
    requires var st := After(steps, validImage).status;
             && Done(st.tasks) < Total(st.tasks) && req.status != Pending
             && req.taskName == Info(st.tasks).task && req.actionName == Info(st.tasks).action
    ensures var st := After(steps, validImage).status;
            && (Decide(st, req, now).Accepted? <==> InFirstTask(st.tasks))
            && (InFirstTask(st.tasks) ==> Effect(st, req, now, Decide(st, req, now).status))
  {
    RunKeeps(steps, validImage);
    DecideExact(After(steps, validImage).status, req, now);
  }

  /** FAILED and TIMEOUT are not final: whatever the state, some report is still accepted, and can make
      it RUNNING, iff an action is left and no action lies in an earlier task. */
  lemma StillOpenExactly(steps: seq<Step>, validImage: string -> bool, now: int)
    ensures var st := After(steps, validImage).status;
            && ((exists req :: Decide(st, req, now).Accepted?) <==>
                Done(st.tasks) < Total(st.tasks) && InFirstTask(st.tasks))
            && ((exists req :: && Decide(st, req, now).Accepted?
                               && Decide(st, req, now).status.state == Some(Running)) <==>
                Done(st.tasks) < Total(st.tasks) && InFirstTask(st.tasks))
  {
    RunKeeps(steps, validImage);
    var st := After(steps, validImage).status;
    forall req
      ensures Decide(st, req, now).Accepted? <==> Applies(st, req)
    {
      DecideExact(st, req, now);
    }
    if Done(st.tasks) < Total(st.tasks) && InFirstTask(st.tasks) {
      var again := Report(Info(st.tasks).task, Info(st.tasks).action, "", Running);
      assert Decide(st, again, now).Accepted?;
    }
  }

  // ---------------------------------------------------------------- timeout passes

  /** A running workflow with a start time, in some run. */
  predicate Timed(st: Status, steps: seq<Step>, validImage: string -> bool) {
    st == After(steps, validImage).status && st.state == Some(Running) && StartTime(st.tasks).Some?
  }

  /** In every run a pass over a running workflow times it out iff more than the global timeout has
      passed since the first action's start, or more than its own timeout since the start of the current
      action, if that is RUNNING; and otherwise it changes nothing.  Timeouts are in seconds, instants
      in nanoseconds. */
  lemma PassVerdict(steps: seq<Step>, validImage: string -> bool, st: Status, now: int, rendered: Option<Template>)
    requires Timed(st, steps, validImage)
    ensures var st' := Next(After(steps, validImage), Pass(now, rendered), validImage).status;
            var k := Done(st.tasks);
            && |st.tasks| > 0 && |st.tasks[0].actions| > 0 && st.tasks[0].actions[0].startedAt.Some?
            && (st'.state == Some(Timeout) <==>
                || now > st.tasks[0].actions[0].startedAt.value + st.globalTimeout * 1_000_000_000
                || (k < Total(st.tasks) && At(st.tasks, k).status == Running && At(st.tasks, k).startedAt.Some?
                    && now > At(st.tasks, k).startedAt.value + At(st.tasks, k).timeout * 1_000_000_000))
            && (st'.state != Some(Timeout) ==> st' == st)
  {
    assert Prefix(st.tasks) by { RunKeeps(steps, validImage); }
    PassOverPrefix(st, now);
  }

  lemma PassOverPrefix(st: Status, now: int)
    requires Prefix(st.tasks) && st.state == Some(Running)
    ensures var k := Done(st.tasks);
            TimeoutPass(st, now).state == Some(Timeout) <==>
              GloballyExpired(st, now) || (k < Total(st.tasks) && Expired(At(st.tasks, k), now))
    ensures TimeoutPass(st, now).state == Some(Timeout) || TimeoutPass(st, now) == st
  {
    ExpiredFlat(st.tasks, now);
    if !SomeExpired(st.tasks, |st.tasks|, now) {
      PassNothing(st.tasks, now);
    }
  }

  /** The action after a pass at which it has timed out: marked, with the whole seconds since its start,
      which reach its timeout. */
  predicate TimesOut(a: Action, a': Action, now: int)
    requires a.startedAt.Some?
  {
    && a' == a.(status := Timeout, message := "Action timed out", seconds := a'.seconds)
    && (now >= a.startedAt.value ==>
          a'.seconds * 1_000_000_000 <= now - a.startedAt.value < (a'.seconds + 1) * 1_000_000_000)
    && (a.timeout >= 0 ==> a'.seconds >= a.timeout)
  }

  lemma ExpireExact(a: Action, now: int)
    ensures if a.status == Running && a.startedAt.Some? && now > a.startedAt.value + a.timeout * 1_000_000_000
            then TimesOut(a, Expire(a, now), now) else Expire(a, now) == a
  {
    if Expired(a, now) {
      ElapsedExact(a.startedAt.value, now);
      if a.timeout >= 0 {
        SecondsReachTimeout(a, now);
      }
    }
  }

  /** In every run a pass changes at most the current action, and that one iff it is RUNNING and past its
      deadline; and a second pass at the same instant changes nothing. */
  lemma PassEffect(steps: seq<Step>, validImage: string -> bool, st: Status, now: int)
    requires Timed(st, steps, validImage)
    ensures var tasks' := TimeoutPass(st, now).tasks;
            var k := Done(st.tasks);
            && Lens(tasks') == Lens(st.tasks) && Total(tasks') == Total(st.tasks)
            && (forall j :: 0 <= j < Total(st.tasks) && j != k ==> At(tasks', j) == At(st.tasks, j))
            && (k < Total(st.tasks) ==>
                  var a := At(st.tasks, k);
                  if a.status == Running && a.startedAt.Some? && now > a.startedAt.value + a.timeout * 1_000_000_000
                  then TimesOut(a, At(tasks', k), now) else At(tasks', k) == a)
    ensures TimeoutPass(TimeoutPass(st, now), now) == TimeoutPass(st, now)
  {
    RunKeeps(steps, validImage);
    PassFlat(st.tasks, now);
    PassAgain(st, now);
    if Done(st.tasks) < Total(st.tasks) {
      ExpireExact(At(st.tasks, Done(st.tasks)), now);
    }
  }

  lemma PassAgain(st: Status, now: int)
    requires StartTime(st.tasks).Some?
    ensures TimeoutPass(TimeoutPass(st, now), now) == TimeoutPass(st, now)
  {
    PassTwice(st.tasks, now);
    var st' := TimeoutPass(st, now);
    assert StartTime(st'.tasks) == StartTime(st.tasks);
    if !SomeExpired(st.tasks, |st.tasks|, now) {
      PassNothing(st.tasks, now);
    }
  }

  lemma SecondsReachTimeout(a: Action, now: int)
    requires Expired(a, now) && a.timeout >= 0
    ensures Expire(a, now).seconds >= a.timeout
  {
  }

  lemma PassTwice(tasks: seq<Task>, now: int)
    ensures var tasks' := ExpireTasks(tasks, |tasks|, now);
            ExpireTasks(tasks', |tasks'|, now) == tasks'
  {
    var tasks' := ExpireTasks(tasks, |tasks|, now);
    forall i | 0 <= i < |tasks|
      ensures ExpireTask(tasks'[i], |tasks'[i].actions|, now) == tasks'[i]
    {
      assert ExpireTask(tasks'[i], |tasks'[i].actions|, now).actions == tasks'[i].actions;
    }
  }

  lemma PassNothing(tasks: seq<Task>, now: int)
    requires !SomeExpired(tasks, |tasks|, now)
    ensures ExpireTasks(tasks, |tasks|, now) == tasks
  {
    forall i | 0 <= i < |tasks|
      ensures ExpireTask(tasks[i], |tasks[i].actions|, now) == tasks[i]
    {
      assert ExpireTask(tasks[i], |tasks[i].actions|, now).actions == tasks[i].actions;
    }
  }

  /** A later clock never takes a timeout back. */
  lemma PassMonotone(steps: seq<Step>, validImage: string -> bool, st: Status, now: int, later: int)
    requires Timed(st, steps, validImage) && now <= later
    requires TimeoutPass(st, now).state == Some(Timeout)
    ensures TimeoutPass(st, later).state == Some(Timeout)
  {
  }

  // ---------------------------------------------------------------- start times

  predicate NamesFirst(tasks: seq<Task>, r: Report) {
    |tasks| > 0 && |tasks[0].actions| > 0 && r.taskName == tasks[0].name && r.actionName == tasks[0].actions[0].name
  }

  /** The first action has a start time iff a RUNNING report on it was accepted. */
  predicate StartInv(s: System) {
    && (s.log == [] ==> Done(s.status.tasks) == 0 && s.status.state != Some(Running))
    && (|s.status.tasks| > 0 && |s.status.tasks[0].actions| > 0 ==>
          && (s.log != [] ==> NamesFirst(s.status.tasks, s.log[0]))
          && (StartTime(s.status.tasks).Some? <==>
              exists j :: 0 <= j < |s.log| && s.log[j].status == Running && NamesFirst(s.status.tasks, s.log[j])))
    && (s.status.tasks == [] ==> s.log == [])
  }

  lemma FirstCoord(tasks: seq<Task>)
    requires |tasks| > 0 && |tasks[0].actions| > 0
    ensures 0 < Total(tasks) && Coord(tasks, 0) == (0, 0) && StartTime(tasks) == At(tasks, 0).startedAt
  {
    OffsetWhole(Lens(tasks));
    LocateUnique(Lens(tasks), 0, 0);
  }

  /** A report that is applied names the first action iff that is the current one. */
  lemma FirstIsCurrent(st: Status, req: Report)
    requires Named(st.tasks) && Applies(st, req) && |st.tasks| > 0 && |st.tasks[0].actions| > 0
    ensures NamesFirst(st.tasks, req) <==> Done(st.tasks) == 0
  {
    FirstCoord(st.tasks);
    var k := Done(st.tasks);
    var c := Coord(st.tasks, k);
    if NamesFirst(st.tasks, req) {
      assert st.tasks[c.0].name == st.tasks[0].name && c.0 == 0;
      assert st.tasks[0].actions[c.1].name == st.tasks[0].actions[0].name && c.1 == 0;
    }
  }

  lemma SendKeepsStart(s: System, req: Report, now: int)
    requires Inv(s.status) && StartInv(s) && Decide(s.status, req, now).Accepted?
    ensures StartInv(System(Decide(s.status, req, now).status, s.log + [req]))
  {
    DecideExact(s.status, req, now);
    var tasks, tasks' := s.status.tasks, Decide(s.status, req, now).status.tasks;
    var log' := s.log + [req];
    assert forall r :: NamesFirst(tasks', r) <==> NamesFirst(tasks, r);
    if |tasks'| > 0 && |tasks'[0].actions| > 0 {
      FirstCoord(tasks);
      FirstCoord(tasks');
      FirstIsCurrent(s.status, req);
      if exists j :: 0 <= j < |s.log| && s.log[j].status == Running && NamesFirst(tasks, s.log[j]) {
        var j :| 0 <= j < |s.log| && s.log[j].status == Running && NamesFirst(tasks, s.log[j]);
        assert log'[j] == s.log[j];
      }
      assert log'[|s.log|] == req;
    }
  }

  lemma PassKeepsStart(s: System, now: int)
    requires Inv(s.status) && StartInv(s) && s.status.state == Some(Running)
    ensures StartInv(s.(status := TimeoutPass(s.status, now)))
  {
  }

  lemma StepKeepsStart(s: System, step: Step, validImage: string -> bool)
    requires Inv(s.status) && StartInv(s)
    ensures StartInv(Next(s, step, validImage))
  {
    match step
    case Send(req, now) =>
      if Decide(s.status, req, now).Accepted? {
        SendKeepsStart(s, req, now);
      }
    case Pass(now, rendered) =>
      if s.status.state.None? && rendered.Some? && Rendered(rendered.value, validImage) {
        CreateKeeps(rendered.value, validImage);
      } else if s.status.state == Some(Running) {
        PassKeepsStart(s, now);
      }
  }

  lemma {:induction false} RunKeepsStart(steps: seq<Step>, validImage: string -> bool)
    ensures StartInv(After(steps, validImage))
  {
    if steps == [] {
      DoneUnique([], 0);
    } else {
      RunKeeps(steps[..|steps| - 1], validImage);
      RunKeepsStart(steps[..|steps| - 1], validImage);
      StepKeepsStart(After(steps[..|steps| - 1], validImage), steps[|steps| - 1], validImage);
    }
  }

  /** Exactly when the global-timeout computation has a start time to work with. */
  lemma StartTimeExact(steps: seq<Step>, validImage: string -> bool)
    ensures var s := After(steps, validImage);
            StartTime(s.status.tasks).Some? <==>
              exists j :: 0 <= j < |s.log| && s.log[j].status == Running && NamesFirst(s.status.tasks, s.log[j])
  {
    RunKeepsStart(steps, validImage);
  }

  /** If the first task has actions and the first accepted report is a RUNNING, as a worker's is,
      then a RUNNING workflow has a start time. */
  lemma StartTimeDefined(steps: seq<Step>, validImage: string -> bool)
    requires var s := After(steps, validImage);
             && |s.status.tasks| > 0 && |s.status.tasks[0].actions| > 0
             && (s.log != [] ==> s.log[0].status == Running)
             && s.status.state == Some(Running)
    ensures StartTime(After(steps, validImage).status.tasks).Some?
  {
    RunKeepsStart(steps, validImage);
    var s := After(steps, validImage);
    assert s.log[0].status == Running && NamesFirst(s.status.tasks, s.log[0]);
  }
}
