/** Which workflows the Postgres-backed system can bring to completion, and from which states. */
module Completion {
  import opened Types
  import opened RowProtocol
  import opened DbServer
  import opened Discipline
  import opened WorkerLoop
  import opened Fleet
  import opened TurnRuns
  import opened Stall

  /** All actions after the first belong to one worker. */
  predicate OneHandoff(actions: seq<WorkflowAction>) {
    forall j :: 2 <= j < |actions| ==> actions[j].workerId == actions[j - 1].workerId
  }

  /** The worker map covers the owners, and every owner has an id it can poll with. */
  predicate Manned(actions: seq<WorkflowAction>, members: set<string>) {
    forall i :: 0 <= i < |actions| ==> actions[i].workerId in members && actions[i].workerId != ""
  }

  /** The run completes workflow `f` with these actions. */
  predicate Completes(steps: seq<Step>, f: string, actions: seq<WorkflowAction>, members: set<string>) {
    && f in After(steps).table
    && After(steps).table[f].actions == actions && After(steps).table[f].members == members
    && Complete(actions, After(steps).table[f].log)
  }

  /** Some continuation of the run completes workflow `f`. */
  ghost predicate Completable(steps: seq<Step>, f: string)
    requires f in After(steps).table
  {
    exists steps' :: steps <= steps'
      && Completes(steps', f, After(steps).table[f].actions, After(steps).table[f].members)
  }

  // ---------------------------------------------------------------- only owners in the worker map get on

  /** Actions that were announced belong to workers of the worker map with an id. */
  predicate HiredLog(wf: Workflow) {
    forall j :: 0 <= j < |wf.actions| && 2 * j < |wf.log| ==>
        wf.actions[j].workerId in wf.members && wf.actions[j].workerId != ""
  }

  predicate HiredProcess(table: Table, w: string, p: Process) {
    && (p.stream != [] || !p.pc.Receiving? ==> w != "")
    && (!p.pc.Receiving? ==> p.pc.turn.wf in table && w in table[p.pc.turn.wf].members)
  }

  predicate Hired(s: System) {
    && (forall f :: f in s.table ==> HiredLog(s.table[f]))
    && (forall w :: w in s.procs && s.procs[w].retries >= 1 ==> HiredProcess(s.table, w, s.procs[w]))
  }

  lemma SetProcHired(s: System, worker: string, p: Option<Process>)
    requires Hired(s) && (p.Some? && p.value.retries >= 1 ==> HiredProcess(s.table, worker, p.value))
    ensures Hired(SetProc(s, worker, p))
  {
  }

  lemma AcceptedHired(wf: Workflow, w: string, pc: Pc)
    requires WorkflowInv(wf) && HiredLog(wf) && (pc.Announcing? || pc.Concluding?)
    requires OnTurn(wf, w, pc.turn, pc.Concluding?) && w in wf.members && w != ""
    ensures HiredLog(Apply(wf, ReportOf(wf.actions, pc)))
  {
  }

  lemma TableHired(s: System, f: string, wf: Workflow)
    requires Hired(s) && f in s.table && HiredLog(wf) && wf.members == s.table[f].members
    ensures Hired(s.(table := s.table[f := wf]))
  {
    var table' := s.table[f := wf];
    forall w | w in s.procs && s.procs[w].retries >= 1
      ensures HiredProcess(table', w, s.procs[w])
    {
      assert HiredProcess(s.table, w, s.procs[w]);
    }
  }

  lemma DeliverHired(s: System, w: string)
    requires Inv(s) && Hired(s) && Enabled(s, Deliver(w))
    ensures Hired(Next(s, Deliver(w)))
  {
    var p := s.procs[w];
    var f := p.pc.turn.wf;
    var req := ReportOf(s.table[f].actions, p.pc);
    assert ProcessInv(s.table, w, p) && HiredProcess(s.table, w, p) && WorkflowInv(s.table[f]) && HiredLog(s.table[f]);
    if Decide(s.table[f].row, s.table[f].actions, req).Accepted? {
      AcceptedHired(s.table[f], w, p.pc);
      TableHired(s, f, Apply(s.table[f], req));
      SetProcHired(s.(table := s.table[f := Apply(s.table[f], req)]), w, Reported(s.table[f].actions, w, p));
    } else {
      SetProcHired(s, w, Some(p.(pc := Tried(p.pc))));
    }
  }

  lemma ReceivedHired(table: Table, worker: string, p: Process)
    requires ProcessInv(table, worker, p) && HiredProcess(table, worker, p) && p.pc.Receiving? && p.stream != []
    ensures p.stream[0].wf in table
    ensures var p' := Received(table[p.stream[0].wf].actions, worker, p);
            p'.Some? ==> HiredProcess(table, worker, p'.value)
  {
    assert Offered(table, worker, p.stream[0]);
  }

  lemma ReceiveHired(s: System, worker: string)
    requires Inv(s) && Hired(s) && Enabled(s, Receive(worker))
    ensures Hired(SetProc(s, worker, Received(s.table[s.procs[worker].stream[0].wf].actions, worker, s.procs[worker])))
  {
    var p := s.procs[worker];
    if p.retries >= 1 {
      assert ProcessInv(s.table, worker, p) && HiredProcess(s.table, worker, p);
      ReceivedHired(s.table, worker, p);
    }
    SetProcHired(s, worker, Received(s.table[p.stream[0].wf].actions, worker, p));
  }

  lemma StepHired(s: System, step: Step)
    requires Inv(s) && Hired(s)
    ensures Hired(Next(s, step))
  {
    if Enabled(s, step) {
      match step
      case Create(wf, actions, members) =>
      case Start(w, retries) => SetProcHired(s, w, Some(Process(retries, [], Receiving)));
      case Crash(w) => SetProcHired(s, w, None);
      case Poll(w, stream) => SetProcHired(s, w, Some(s.procs[w].(stream := stream)));
      case Receive(w) => ReceiveHired(s, w);
      case Execute(w, run) =>
        SetProcHired(s, w, Some(s.procs[w].(pc := Concluding(s.procs[w].pc.turn, StatusOf(run), 0))));
      case Lose(w) => SetProcHired(s, w, Some(s.procs[w].(pc := Tried(s.procs[w].pc))));
      case Deliver(w) => DeliverHired(s, w);
      case GiveUp(w) =>
        SetProcHired(s, w, if s.procs[w].pc.tried == 0
                           then Reported(s.table[s.procs[w].pc.turn.wf].actions, w, s.procs[w]) else None);
    }
  }

  lemma {:induction false} RunHired(steps: seq<Step>)
    ensures Hired(After(steps))
  {
    if steps != [] {
      RunHired(steps[..|steps| - 1]);
      RunKeeps(steps[..|steps| - 1]);
      StepHired(After(steps[..|steps| - 1]), steps[|steps| - 1]);
    }
  }

  // ---------------------------------------------------------------- ways to go on

  /** Except between SUCCESS and the next announcement beyond the second action, the worker at turn
      is offered the workflow. */
  lemma TurnIsOffered(wf: Workflow, w: string)
    requires Orderly(wf) && AtTurn(wf, w, |wf.log| / 2) && (|wf.log| <= 2 || |wf.log| % 2 == 1)
    ensures Applicable(wf.row, wf.actions, w) == Send
  {
    if wf.log != [] {
      assert DisciplinedEvent(wf.actions, wf.log, |wf.log| - 1);
    }
  }

  /** A restarted process of the worker at turn gets the workflow by polling. */
  lemma PickUp(steps: seq<Step>, f: string, w: string, wf: Workflow) returns (steps': seq<Step>, p: Process)
    requires f in After(steps).table && wf == After(steps).table[f] && w in wf.members && w != ""
    requires AtTurn(wf, w, |wf.log| / 2) && (|wf.log| <= 2 || |wf.log| % 2 == 1)
    ensures At(steps', f, w, |wf.log| / 2, wf, p) && p.retries == 1 && p.pc == Begin(p.pc.turn)
    ensures p.pc.turn.contextState == Running <==> |wf.log| % 2 == 1
    ensures steps <= steps'
  {
    StoredOrderly(steps, f);
    TurnIsOffered(wf, w);
    OfferedAtTurn(wf, w);
    var o := Offer(f, wf.row);
    var steps1 := Polled(steps, w, o);
    steps' := ReceiveRun(steps1, w, Process(1, [o], Receiving), o, wf);
    p := Process(1, [], Begin(Turn(f, wf.row.state, |wf.log| / 2)));
  }

  /** Crash, start, poll. */
  lemma Polled(steps: seq<Step>, w: string, o: Offer) returns (steps': seq<Step>)
    requires w != "" && Offered(After(steps).table, w, o)
    ensures steps <= steps' && After(steps').table == After(steps).table
    ensures w in After(steps').procs && After(steps').procs[w] == Process(1, [o], Receiving)
  {
    AfterSnoc(steps, Crash(w));
    var steps1 := steps + [Crash(w)];
    AfterSnoc(steps1, Start(w, 1));
    var steps2 := steps1 + [Start(w, 1)];
    AfterSnoc(steps2, Poll(w, [o]));
    assert IsStream(After(steps).table, w, [o]);
    steps' := steps2 + [Poll(w, [o])];
  }

  const SUCCEED := Execution(Success, false)

  /** Every attempt gets through and every execution succeeds. */
  function Fine(retries: int): World {
    World(retries, (i, status) => r => true, i => SUCCEED)
  }

  lemma FineIsConnected(retries: int)
    requires retries >= 1
    ensures Connected(Fine(retries))
  {
    forall i, status
      ensures GetsThrough(Fine(retries), i, status)
    {
      assert Fine(retries).reaches(i, status)(1);
    }
  }

  /** These are the reports on `m` actions, the last of them SUCCESS. */
  predicate Succeeds(events: seq<Report>, m: nat) {
    m > 0 && |events| == 2 * m && events[|events| - 1].status == Success
  }

  /** The script of a worker that owns the actions up to `n` and not the one after. */
  lemma {:induction false} ScriptLength(actions: seq<WorkflowAction>, w: string, i: nat, n: nat, world: World)
    requires Connected(world) && i < n <= |actions| && forall j :: i < j < n ==> actions[j].workerId == w
    requires (n < |actions| ==> actions[n].workerId != w) && forall j :: world.runs(j) == SUCCEED
    ensures Succeeds(Script(actions, w, i, world), n - i)
    decreases n - i
  {
    assert world.runs(i) == SUCCEED && BothGetThrough(world, i);
    assert GoesOnAfter(actions, w, i, world) <==> i + 1 < n;
    var events := Events(actions[i], i, world);
    if i + 1 < n {
      ScriptLength(actions, w, i + 1, n, world);
      assert Script(actions, w, i, world) == events + Script(actions, w, i + 1, world);
    } else {
      assert Script(actions, w, i, world) == events + [];
    }
  }

  /** Workflow `f` is later open after `n` completed actions. */
  predicate Reaches(steps: seq<Step>, steps': seq<Step>, f: string, n: nat)
    requires f in After(steps).table
  {
    && steps <= steps' && f in After(steps').table && Continues(After(steps).table[f], After(steps').table[f])
    && |After(steps').table[f].log| == 2 * n && Open(After(steps').table[f].log)
  }

  lemma WorkedOff(wf: Workflow, w: string, contextState: State, i: nat, n: nat, world: World)
    requires world.retries >= 1 && Connected(world) && contextState != Running
    requires Orderly(wf) && Open(wf.log) && |wf.log| == 2 * i
    requires i < n <= |wf.actions| && forall j :: i < j < n ==> wf.actions[j].workerId == w
    requires (n < |wf.actions| ==> wf.actions[n].workerId != w) && forall j :: world.runs(j) == SUCCEED
    ensures var log := TurnFrom(wf, w, contextState, i, world).0.log; |log| == 2 * n && Open(log)
  {
    AnnouncedTurn(wf, w, contextState, i, world);
    ScriptLength(wf.actions, w, i, n, world);
    OpenAfter(wf.log, Script(wf.actions, w, i, world), n - i);
  }

  lemma OpenAfter(log: seq<Report>, events: seq<Report>, m: nat)
    requires Succeeds(events, m)
    ensures |log + events| == |log| + 2 * m && Open(log + events)
  {
  }

  /** A worker that announces its actions works off those it owns in a row. */
  lemma WorkOff(steps: seq<Step>, f: string, w: string, i: nat, n: nat, wf: Workflow, p: Process)
      returns (steps': seq<Step>)
    requires At(steps, f, w, i, wf, p) && p.retries >= 1 && p.pc == Begin(p.pc.turn)
             && p.pc.turn.contextState != Running
    requires Open(wf.log) && |wf.log| == 2 * i && i < n <= |wf.actions|
    requires forall j :: i < j < n ==> wf.actions[j].workerId == w
    requires n < |wf.actions| ==> wf.actions[n].workerId != w
    ensures f in After(steps).table && Reaches(steps, steps', f, n)
  {
    var world := Fine(p.retries);
    FineIsConnected(p.retries);
    StoredOrderly(steps, f);
    WorkedOff(wf, w, p.pc.turn.contextState, i, n, world);
    steps' := TurnRun(steps, f, w, i, wf, p, world);
    RunContinues(steps, steps', f);
  }

  /** A process at the beginning of its turn gets its action done. */
  lemma DoOne(steps: seq<Step>, f: string, w: string, i: nat, wf: Workflow, p: Process) returns (steps': seq<Step>)
    requires At(steps, f, w, i, wf, p) && p.retries >= 1 && p.pc == Begin(p.pc.turn) && Open(wf.log)
    requires |wf.log| == 2 * i + if p.pc.turn.contextState == Running then 1 else 0
    ensures f in After(steps).table && Reaches(steps, steps', f, i + 1)
  {
    var world := Fine(p.retries);
    FineIsConnected(p.retries);
    StoredOrderly(steps, f);
    steps' := PerformRun(steps, f, w, i, wf, p, world);
    if p.pc.turn.contextState == Running {
      var wf' := ResumedResult(wf, i, world);
      assert GetsThrough(world, i, Success);
    } else {
      PerformedEvents(wf, p.pc.turn.contextState, i, world);
      assert BothGetThrough(world, i);
    }
    RunContinues(steps, steps', f);
  }

  /** After the first action, a restarted process works off the actions from the second on that belong
      to one worker. */
  lemma SecondOn(steps: seq<Step>, f: string, n: nat) returns (steps': seq<Step>)
    requires f in After(steps).table && Open(After(steps).table[f].log) && |After(steps).table[f].log| == 2
    requires var wf := After(steps).table[f];
             && Manned(wf.actions, wf.members) && 2 <= n <= |wf.actions|
             && (forall j :: 1 <= j < n ==> wf.actions[j].workerId == wf.actions[1].workerId)
             && (n < |wf.actions| ==> wf.actions[n].workerId != wf.actions[1].workerId)
    ensures Reaches(steps, steps', f, n)
  {
    var wf := After(steps).table[f];
    var steps1, p := PickUp(steps, f, wf.actions[1].workerId, wf);
    steps' := WorkOff(steps1, f, wf.actions[1].workerId, 1, n, wf, p);
  }

  /** As long as at most the first action is done, everything up to the next change of worker can be. */
  lemma FromTheStart(steps: seq<Step>, f: string, n: nat) returns (steps': seq<Step>)
    requires f in After(steps).table && Open(After(steps).table[f].log) && |After(steps).table[f].log| <= 2
    requires var wf := After(steps).table[f];
             && Manned(wf.actions, wf.members) && 1 <= n <= |wf.actions| && (n == 1 ==> |wf.actions| == 1)
             && (forall j :: 1 <= j < n ==> wf.actions[j].workerId == wf.actions[1].workerId)
             && (1 < n < |wf.actions| ==> wf.actions[n].workerId != wf.actions[1].workerId)
    ensures Reaches(steps, steps', f, n)
  {
    steps' := steps;
    if |After(steps).table[f].log| <= 1 {
      steps' := PickUpAndDo(steps, f);
    }
    if n > 1 {
      steps' := SecondOn(steps', f, n);
    }
  }

  /** The first action, and any action already announced, can always still be finished. */
  lemma PickUpAndDo(steps: seq<Step>, f: string) returns (steps': seq<Step>)
    requires f in After(steps).table && Open(After(steps).table[f].log)
    requires var wf := After(steps).table[f];
             Manned(wf.actions, wf.members) && |wf.log| < 2 * |wf.actions| && (wf.log == [] || |wf.log| % 2 == 1)
    ensures Reaches(steps, steps', f, |After(steps).table[f].log| / 2 + 1)
  {
    var wf := After(steps).table[f];
    var i := |wf.log| / 2;
    var steps1, p := PickUp(steps, f, wf.actions[i].workerId, wf);
    steps' := DoOne(steps1, f, wf.actions[i].workerId, i, wf, p);
  }

  /** The process that carries workflow `f` is at its turn. */
  lemma CarrierState(steps: seq<Step>, f: string, w: string, wf: Workflow, p: Process)
    requires f in After(steps).table && After(steps).table[f] == wf
    requires w in After(steps).procs && After(steps).procs[w] == p && Carries(p, f)
    ensures AtTurn(wf, w, p.pc.turn.index) && |wf.log| == 2 * p.pc.turn.index + if p.pc.Announcing? then 0 else 1
    ensures At(steps, f, w, p.pc.turn.index, wf, p)
  {
    RunKeeps(steps);
    assert ProcessInv(After(steps).table, w, p);
  }

  /** The next report of a process that carries a workflow gets through. */
  lemma CarrierReports(steps: seq<Step>, f: string, w: string, wf: Workflow, p: Process) returns (steps': seq<Step>)
    requires Carries(p, f) && !p.pc.Executing? && At(steps, f, w, p.pc.turn.index, wf, p)
    ensures var req := ReportOf(wf.actions, p.pc);
            Ran(steps, steps', f, w, Apply(wf, req), Reported(wf.actions, w, p)) && Apply(wf, req).log == wf.log + [req]
  {
    CarrierState(steps, f, w, wf, p);
    StoredOrderly(steps, f);
    DecideNext(wf.actions, wf.log, ReportOf(wf.actions, p.pc));
    var reaches := (r: nat) => true;
    assert reaches(p.pc.tried + 1);
    steps' := ReportRun(steps, f, w, p.pc.turn.index, wf, p, reaches);
  }

  /** A process that carries a workflow finishes its action; it then carries the next one, if it is
      its own. */
  lemma {:induction false} FinishAction(steps: seq<Step>, f: string, w: string, wf: Workflow, p: Process)
      returns (steps': seq<Step>, p': Option<Process>)
    requires f in After(steps).table && After(steps).table[f] == wf
    requires w in After(steps).procs && After(steps).procs[w] == p && Carries(p, f) && p.pc.turn.index < |wf.actions|
    ensures Reaches(steps, steps', f, p.pc.turn.index + 1) && After(steps').table[f].actions == wf.actions
    ensures var i := p.pc.turn.index + 1;
            i < |wf.actions| && wf.actions[i].workerId == w ==>
              && p'.Some? && p'.value == p.(pc := Begin(p.pc.turn.(index := i)))
              && At(steps', f, w, i, After(steps').table[f], p'.value)
    decreases if p.pc.Announcing? then 2 else if p.pc.Executing? then 1 else 0
  {
    CarrierState(steps, f, w, wf, p);
    match p.pc
    case Announcing(turn, _) =>
      var steps1 := CarrierReports(steps, f, w, wf, p);
      steps', p' := FinishAction(steps1, f, w, After(steps1).table[f], p.(pc := Executing(turn)));
      RunContinues(steps, steps', f);
    case Executing(turn) =>
      var steps1 := ExecuteRun(steps, f, w, turn.index, wf, p, SUCCEED);
      steps', p' := FinishAction(steps1, f, w, wf, p.(pc := Concluding(turn, Success, 0)));
      RunContinues(steps, steps', f);
    case Concluding(turn, _, _) =>
      steps' := CarrierReports(steps, f, w, wf, p);
      p' := Reported(wf.actions, w, p);
      RunContinues(steps, steps', f);
  }

  /** A carried workflow can be completed if its worker owns all that is left. */
  lemma CarryOn(steps: seq<Step>, f: string, w: string, wf: Workflow, p: Process) returns (steps': seq<Step>)
    requires f in After(steps).table && After(steps).table[f] == wf
    requires w in After(steps).procs && After(steps).procs[w] == p && Carries(p, f)
    requires forall j :: |wf.log| / 2 < j < |wf.actions| ==> wf.actions[j].workerId == w
    ensures Reaches(steps, steps', f, |wf.actions|)
  {
    CarrierState(steps, f, w, wf, p);
    var i, n := p.pc.turn.index + 1, |wf.actions|;
    var steps1, p1 := FinishAction(steps, f, w, wf, p);
    steps' := steps1;
    if i < n {
      steps' := WorkOff(steps1, f, w, i, n, After(steps1).table[f], p1.value);
    }
  }

  lemma {:induction false} OneOwner(actions: seq<WorkflowAction>, i: nat, n: nat)
    requires OneHandoff(actions) && 1 <= i <= n < |actions|
    ensures forall j :: i <= j <= n ==> actions[j].workerId == actions[i].workerId
  {
    if n > i {
      OneOwner(actions, i, n - 1);
      assert actions[n].workerId == actions[n - 1].workerId;
    }
  }

  // ---------------------------------------------------------------- theorems

  /** The workflow can still be completed: nothing has failed, and either at most the first action is
      done, or the last one is at least announced, or a process carries it. */
  predicate Alive(s: System, f: string)
    requires f in s.table
  {
    var wf := s.table[f];
    && Open(wf.log) && OneHandoff(wf.actions) && Manned(wf.actions, wf.members)
    && (|wf.log| <= 2 || |wf.log| >= 2 * |wf.actions| - 1 || Carried(s, f))
  }

  lemma AliveCompletes(steps: seq<Step>, f: string) returns (steps': seq<Step>)
    requires f in After(steps).table && Alive(After(steps), f)
    ensures Reaches(steps, steps', f, |After(steps).table[f].actions|)
  {
    var wf := After(steps).table[f];
    var n := |wf.actions|;
    StoredOrderly(steps, f);
    if |wf.log| == 2 * n {
      steps' := steps;
    } else if |wf.log| <= 2 {
      if n >= 2 {
        OneOwner(wf.actions, 1, n - 1);
      }
      steps' := FromTheStart(steps, f, n);
    } else if |wf.log| == 2 * n - 1 {
      steps' := PickUpAndDo(steps, f);
    } else {
      var w :| w in After(steps).procs && Carries(After(steps).procs[w], f);
      var p := After(steps).procs[w];
      CarrierState(steps, f, w, wf, p);
      OneOwner(wf.actions, |wf.log| / 2, n - 1);
      steps' := CarryOn(steps, f, w, wf, p);
    }
  }

  /** A completed workflow had all its actions announced by workers of the map, without a change of
      worker beyond the second action. */
  lemma CompletedWasPossible(steps: seq<Step>, f: string)
    requires f in After(steps).table && Complete(After(steps).table[f].actions, After(steps).table[f].log)
    ensures OneHandoff(After(steps).table[f].actions)
    ensures Manned(After(steps).table[f].actions, After(steps).table[f].members)
  {
    RunHired(steps);
    RunKeeps(steps);
    assert WorkflowInv(After(steps).table[f]) && HiredLog(After(steps).table[f]);
  }

  lemma CompletableIsAlive(steps: seq<Step>, steps': seq<Step>, f: string)
    requires f in After(steps).table && steps <= steps'
    requires Completes(steps', f, After(steps).table[f].actions, After(steps).table[f].members)
    ensures Alive(After(steps), f)
  {
    var wf := After(steps).table[f];
    RunContinues(steps, steps', f);
    CompletedWasPossible(steps', f);
    if wf.log != [] {
      var log' := After(steps').table[f].log;
      assert DisciplinedEvent(wf.actions, log', |wf.log| - 1);
    }
    if 3 <= |wf.log| <= 2 * |wf.actions| - 2 && !Carried(After(steps), f) {
      DoomBoundsLog(steps, steps', f, (|wf.log| - 1) / 2);
    }
  }

  /** From any reachable state, some continuation completes a workflow iff it is alive. */
  lemma CompletableExact(steps: seq<Step>, f: string)
    requires f in After(steps).table
    ensures Completable(steps, f) <==> Alive(After(steps), f)
  {
    var wf := After(steps).table[f];
    if Alive(After(steps), f) {
      var steps' := AliveCompletes(steps, f);
      StoredOrderly(steps', f);
      assert Completes(steps', f, wf.actions, wf.members);
    }
    if Completable(steps, f) {
      var steps' :| steps <= steps' && Completes(steps', f, wf.actions, wf.members);
      CompletableIsAlive(steps, steps', f);
    }
  }

  /** Some run completes a workflow iff all its actions after the first belong to one worker and the
      worker map covers their owners. */
  lemma CompletionExact(f: string, actions: seq<WorkflowAction>, members: set<string>)
    requires f != "" && WellNamed(actions)
    ensures (exists steps :: Completes(steps, f, actions, members)) <==> OneHandoff(actions) && Manned(actions, members)
  {
    if OneHandoff(actions) && Manned(actions, members) {
      var steps := [] + [Create(f, actions, members)];
      AfterSnoc([], Create(f, actions, members));
      CompletableExact(steps, f);
    }
    forall steps | Completes(steps, f, actions, members)
      ensures OneHandoff(actions) && Manned(actions, members)
    {
      CompletedWasPossible(steps, f);
    }
  }

  /** Where the worker first changes after the second action or later, some run gets to the SUCCESS
      before the change, and from there nothing that may follow changes the workflow. */
  lemma HandoffIsReached(f: string, actions: seq<WorkflowAction>, members: set<string>, n: nat)
      returns (steps: seq<Step>)
    requires f != "" && WellNamed(actions) && Manned(actions, members) && 2 <= n < |actions|
    requires forall j :: 2 <= j < n ==> actions[j].workerId == actions[j - 1].workerId
    requires actions[n].workerId != actions[n - 1].workerId
    ensures f in After(steps).table && After(steps).table[f].actions == actions
    ensures |After(steps).table[f].log| == 2 * n && Open(After(steps).table[f].log)
    ensures forall steps' :: steps <= steps' ==>
              f in After(steps').table && After(steps').table[f] == After(steps).table[f]
  {
    var first := [] + [Create(f, actions, members)];
    AfterSnoc([], Create(f, actions, members));
    OneOwner(actions[..n], 1, n - 1);
    assert forall j :: 0 <= j < n ==> actions[..n][j] == actions[j];
    steps := FromTheStart(first, f, n);
    forall steps' | steps <= steps'
      ensures f in After(steps').table && After(steps').table[f] == After(steps).table[f]
    {
      HandoffStalls(steps, steps', f, n - 1);
    }
  }

  /** Some run gets the worker of the later actions to where it announces action `i`. */
  lemma {:induction false} GetsTo(f: string, actions: seq<WorkflowAction>, members: set<string>, w: string, i: nat)
      returns (steps: seq<Step>, wf: Workflow, p: Process)
    requires f != "" && WellNamed(actions) && Manned(actions, members) && OneHandoff(actions)
    requires 1 <= i < |actions| && w == actions[1].workerId
    ensures At(steps, f, w, i, wf, p) && Carries(p, f) && p.pc.Announcing? && p.pc == Begin(p.pc.turn)
    ensures wf.actions == actions && wf.members == members && |wf.log| == 2 * i && Open(wf.log)
    decreases i
  {
    OneOwner(actions, 1, |actions| - 1);
    if i == 1 {
      AfterSnoc([], Create(f, actions, members));
      var steps1 := PickUpAndDo([] + [Create(f, actions, members)], f);
      wf := After(steps1).table[f];
      steps, p := PickUp(steps1, f, w, wf);
    } else {
      steps, wf, p := GetsTo(f, actions, members, w, i - 1);
      var steps1, p1 := FinishAction(steps, f, w, wf, p);
      steps, wf, p := steps1, After(steps1).table[f], p1.value;
    }
  }

  lemma Announces(steps: seq<Step>, f: string, w: string, i: nat, wf: Workflow, p: Process)
      returns (steps': seq<Step>, wf': Workflow, p': Process)
    requires At(steps, f, w, i, wf, p) && Carries(p, f) && p.pc.Announcing? && |wf.log| == 2 * i
    ensures At(steps', f, w, i, wf', p') && Carries(p', f)
    ensures Continues(wf, wf') && |wf'.log| == 2 * i + 1 && Open(wf'.log)
  {
    steps' := CarrierReports(steps, f, w, wf, p);
    wf', p' := Apply(wf, ReportOf(wf.actions, p.pc)), p.(pc := Executing(p.pc.turn));
  }

  /** For every workflow that can complete and every action but the first and the last: in some run
      that action is running and the workflow can still complete, and a crash of its worker then ends
      that for good. */
  lemma CrashIsReached(f: string, actions: seq<WorkflowAction>, members: set<string>, i: nat)
      returns (steps: seq<Step>, w: string)
    requires f != "" && WellNamed(actions) && Manned(actions, members) && OneHandoff(actions)
    requires 1 <= i && i + 1 < |actions|
    ensures f in After(steps).table && After(steps).table[f].actions == actions
            && After(steps).table[f].members == members
    ensures |After(steps).table[f].log| == 2 * i + 1 && Completable(steps, f)
    ensures f in After(steps + [Crash(w)]).table && !Completable(steps + [Crash(w)], f)
  {
    w := actions[1].workerId;
    OneOwner(actions, 1, i);
    var wf, p;
    steps, wf, p := GetsTo(f, actions, members, w, i);
    steps, wf, p := Announces(steps, f, w, i, wf, p);
    CompletableExact(steps, f);
    CrashEnds(steps, f, w, i);
  }

  lemma CrashEnds(steps: seq<Step>, f: string, w: string, i: nat)
    requires f in After(steps).table && 1 <= i && i + 1 < |After(steps).table[f].actions|
    requires |After(steps).table[f].log| == 2 * i + 1 && w == After(steps).table[f].actions[i].workerId
    ensures f in After(steps + [Crash(w)]).table && !Completable(steps + [Crash(w)], f)
  {
    assert |After(steps).table[f].log| / 2 == i;
    CrashDooms(steps, f, w, i);
    DoomedIsNotAlive(After(steps + [Crash(w)]), f, i);
    CompletableExact(steps + [Crash(w)], f);
  }

  lemma DoomedIsNotAlive(s: System, f: string, i: nat)
    requires Doomed(s, f, i)
    ensures !Alive(s, f)
  {
  }
}
