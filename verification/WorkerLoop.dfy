/** The worker: turn selection, the retried report, and the action loop
    (cmd/tink-worker/worker/worker.go:261-456). */
module WorkerLoop {
  import opened Types
  import opened RowProtocol
  import opened DbServer
  import opened Discipline

  /** What a worker does with a context it receives: it is not its turn, it starts at an action, or
      the lookup in the action list is out of range. */
  datatype Selection = NotMine | Take(index: nat) | NoSuchAction

  function TakeAt(actions: seq<WorkflowAction>, i: int, workerId: string): Selection {
    if !(0 <= i < |actions|) then NoSuchAction
    else if actions[i].workerId == workerId then Take(i)
    else NotMine
  }

  /** worker.go:279-306 */
  function SelectTurn(row: Row, actions: seq<WorkflowAction>, workerId: string): Selection {
    if row.action == "" then TakeAt(actions, 0, workerId)
    else
      match row.state
      case Success => if IsLastAction(row, actions) then NotMine else TakeAt(actions, row.index + 1, workerId)
      case Failed => NotMine
      case Timeout => NotMine
      case _ => TakeAt(actions, row.index, workerId)
  }

  /** Server and worker agree on whose turn it is: the stream offers the workflow to a worker exactly
      when that worker's own selection takes it, except that a row at SUCCESS beyond the first action
      is offered to nobody; the selected action is the worker's own; and no two workers are offered
      the workflow. */
  ghost predicate TurnsAgree(row: Row, actions: seq<WorkflowAction>, workerId: string) {
    var turn := SelectTurn(row, actions, workerId);
    && Applicable(row, actions, workerId) != Crashed && turn != NoSuchAction
    && (Applicable(row, actions, workerId) == Send <==> turn.Take? && !(row.state == Success && row.index >= 1))
    && (turn.Take? ==> turn.index < |actions| && actions[turn.index].workerId == workerId)
    && (Applicable(row, actions, workerId) == Send ==>
        forall other :: Applicable(row, actions, other) == Send ==> other == workerId)
  }

  lemma RowTurns(row: Row, actions: seq<WorkflowAction>, workerId: string)
    requires 0 <= row.index < |actions| && (row.action == "" ==> row == InitialRow(|actions|))
    ensures TurnsAgree(row, actions, workerId)
  {
  }

  /** They agree on every row that any requests of any clients can bring about. */
  lemma OfferMatchesTurn(wf: Workflow, reqs: seq<Report>, workerId: string)
    requires wf == Fresh(wf.actions, wf.members) && WellNamed(wf.actions) && |wf.actions| > 0
    ensures 0 <= ApplyAll(wf, reqs).row.index < |wf.actions|
    ensures TurnsAgree(ApplyAll(wf, reqs).row, wf.actions, workerId)
  {
    RowIsReplayOfLog(wf, reqs);
    var w := ApplyAll(wf, reqs);
    if w.log != [] {
      assert EventConsistent(w.actions, w.log, |w.log| - 1) && w.log[..|w.log| - 1 + 1] == w.log;
    }
    RowTurns(w.row, wf.actions, workerId);
  }

  /** The stream breaks off exactly on workflows without actions, whatever requests came before. */
  lemma CrashedExactly(wf: Workflow, reqs: seq<Report>, workerId: string)
    requires wf == Fresh(wf.actions, wf.members)
    ensures Applicable(ApplyAll(wf, reqs).row, wf.actions, workerId) == Crashed <==> wf.actions == []
  {
    RowIsReplayOfLog(wf, reqs);
    var w := ApplyAll(wf, reqs);
    if w.log != [] {
      assert EventConsistent(w.actions, w.log, |w.log| - 1) && w.log[..|w.log| - 1 + 1] == w.log;
    }
  }

  /** What `execute` returned for an action. */
  datatype Execution = Execution(state: State, failed: bool)

  /** The status reported for an execution (worker.go:376-391). */
  function StatusOf(e: Execution): (s: State)
    ensures s == Success <==> e.state == Success && !e.failed
    ensures s == Timeout <==> e.state == Timeout
    ensures s == Failed <==> e.state != Timeout && (e.state != Success || e.failed)
  {
    if e.failed || e.state != Success then
      if e.state == Timeout then Timeout else Failed
    else Success
  }

  function StatusReport(a: WorkflowAction, status: State): Report {
    Report(a.taskName, a.name, a.workerId, status)
  }

  predicate SomeReaches(retries: int, reaches: nat -> bool) {
    exists r :: 1 <= r <= retries && reaches(r)
  }

  /** A report of which attempt `r` gets to the server iff `reaches(r)`: the workflow afterwards, and
      whether the call succeeds.  With `retries < 1` nothing is sent and the call succeeds. */
  function Attempted(wf: Workflow, req: Report, retries: int, reaches: nat -> bool): (r: (Workflow, bool))
    ensures r.0.actions == wf.actions && r.0.members == wf.members
  {
    if SomeReaches(retries, reaches)
      then (Apply(wf, req), Decide(wf.row, wf.actions, req).Accepted?) else (wf, retries < 1)
  }

  /** reportActionStatus: at most `retries` attempts, until one is accepted.  `reaches(r)` says
      whether attempt `r` gets to the server at all.  With `retries < 1` nothing is sent and the
      call succeeds. */
  method ReportActionStatus(server: Server, retries: int, reaches: nat -> bool, wfId: string, req: Report)
      returns (ok: bool)
    requires wfId != "" && wfId in server.table
    modifies server
    ensures server.table == old(server.table)[wfId := Attempted(old(server.table)[wfId], req, retries, reaches).0]
    ensures ok == Attempted(old(server.table)[wfId], req, retries, reaches).1
  {
    var r := 1;
    while r <= retries
      invariant 1 <= r && (r <= retries + 1 || retries < 1)
      invariant server.table == old(server.table)[wfId := old(server.table)[wfId]]
      invariant r > 1 ==> retries >= 1
      invariant Decide(server.table[wfId].row, server.table[wfId].actions, req).Accepted? ==>
                  forall q :: 1 <= q < r ==> !reaches(q)
    {
      if reaches(r) {
        var reply := server.ReportActionStatus(wfId, req);
        if reply.Accepted? {
          return true;
        }
      }
      r := r + 1;
    }
    ok := retries < 1;
  }

  /** How the processing of one context ends: the worker goes on with its stream, returns from
      ProcessWorkflowActions after a result other than SUCCESS, exits on a refused report, or panics
      on an index out of range. */
  datatype Ending = GoesOn | Returns | Exits | Panics

  /** What the worker does not control: how many attempts a report has, which of them get through,
      and what the executions give.  `reaches(i, status)(r)` is about attempt `r` of the report of
      `status` on action `i`. */
  datatype World = World(retries: int, reaches: (nat, State) -> nat -> bool, runs: nat -> Execution)

  /** Some attempt of the report of `status` on action `i` gets through. */
  predicate GetsThrough(world: World, i: nat, status: State) {
    SomeReaches(world.retries, world.reaches(i, status))
  }

  /** So does some attempt of each of the two reports on action `i`. */
  predicate BothGetThrough(world: World, i: nat) {
    GetsThrough(world, i, Running) && GetsThrough(world, i, StatusOf(world.runs(i)))
  }

  /** The worker goes on with action `i + 1` after action `i`, which it has announced: SUCCESS, no
      report failed, and the next action is its own. */
  predicate GoesOnAfter(actions: seq<WorkflowAction>, workerId: string, i: nat, world: World)
    requires i < |actions|
  {
    && (world.retries < 1 || BothGetThrough(world, i))
    && StatusOf(world.runs(i)) == Success && i + 1 < |actions| && actions[i + 1].workerId == workerId
  }

  /** The reports on action `i` up to the first that does not get through: RUNNING and the result. */
  function Events(a: WorkflowAction, i: nat, world: World): (s: seq<Report>)
    ensures |s| <= 2 && (|s| == 2 <==> BothGetThrough(world, i))
  {
    if !GetsThrough(world, i, Running) then []
    else if !GetsThrough(world, i, StatusOf(world.runs(i))) then [StatusReport(a, Running)]
    else [StatusReport(a, Running), StatusReport(a, StatusOf(world.runs(i)))]
  }

  /** The reports of a worker that announces every action: RUNNING and the result for action `i`,
      then for the following ones, as long as they get through, succeed and are its own. */
  function Script(actions: seq<WorkflowAction>, workerId: string, i: nat, world: World): (s: seq<Report>)
    requires i < |actions|
    ensures |s| <= 2 * (|actions| - i)
    decreases |actions| - i
  {
    Events(actions[i], i, world) +
    if GoesOnAfter(actions, workerId, i, world) then Script(actions, workerId, i + 1, world) else []
  }

  /** How such a turn ends. */
  function ScriptEnding(actions: seq<WorkflowAction>, workerId: string, i: nat, world: World): (e: Ending)
    requires i < |actions|
    decreases |actions| - i
  {
    if world.retries >= 1 && !BothGetThrough(world, i) then Exits
    else if StatusOf(world.runs(i)) != Success then Returns
    else if GoesOnAfter(actions, workerId, i, world) then ScriptEnding(actions, workerId, i + 1, world)
    else GoesOn
  }

  /** A stored workflow as workers leave it. */
  predicate Orderly(wf: Workflow) {
    && WellNamed(wf.actions) && Disciplined(wf.actions, wf.log)
    && wf.row == RowAfter(wf.actions, wf.log)
  }

  /** The log and the ending of a turn that starts at action `i`.  A turn that was announced by the
      worker is worked off by the script.  A resumed one adds a single event, if that gets through, and
      if the worker then goes on to an action of its own, that unannounced action is refused and the
      worker exits.  With less than one retry nothing is sent and nothing fails. */
  predicate TurnOutcome(actions: seq<WorkflowAction>, workerId: string, i: nat, resumed: bool, world: World,
                        log: seq<Report>, log': seq<Report>, ending: Ending)
    requires i < |actions|
  {
    var status := StatusOf(world.runs(i));
    if !resumed || world.retries < 1 then
      && log' == log + Script(actions, workerId, i, world)
      && ending == ScriptEnding(actions, workerId, i, world)
    else if !GetsThrough(world, i, status) then log' == log && ending == Exits
    else
      && log' == log + [StatusReport(actions[i], status)]
      && ending == if status != Success then Returns
                   else if i + 1 < |actions| && actions[i + 1].workerId == workerId then Exits
                   else GoesOn
  }

  function Sent(wf: Workflow, i: nat, status: State, world: World): (r: (Workflow, bool))
    requires i < |wf.actions|
    ensures r.0.actions == wf.actions && r.0.members == wf.members
  {
    Attempted(wf, StatusReport(wf.actions[i], status), world.retries, world.reaches(i, status))
  }

  /** The reports on one action: RUNNING, unless the received context was at RUNNING, and the result. */
  function Performed(wf: Workflow, contextState: State, i: nat, world: World): (r: (Workflow, bool))
    requires i < |wf.actions|
    ensures r.0.actions == wf.actions && r.0.members == wf.members
  {
    var announced := if contextState != Running then Sent(wf, i, Running, world) else (wf, true);
    if announced.1 then Sent(announced.0, i, StatusOf(world.runs(i)), world) else announced
  }

  /** The workflow and the ending of a turn from action `i` on, for a context received in state
      `contextState`. */
  function TurnFrom(wf: Workflow, workerId: string, contextState: State, i: nat, world: World): (r: (Workflow, Ending))
    requires i < |wf.actions|
    ensures r.0.actions == wf.actions && r.0.members == wf.members
    decreases |wf.actions| - i
  {
    var done := Performed(wf, contextState, i, world);
    if !done.1 then (done.0, Exits)
    else if StatusOf(world.runs(i)) != Success then (done.0, Returns)
    else if i + 1 < |wf.actions| && wf.actions[i + 1].workerId == workerId
    then TurnFrom(done.0, workerId, contextState, i + 1, world)
    else (done.0, GoesOn)
  }

  /** The reports on one action, on a server whose tables are `table` with `wf` for workflow `wfId`. */
  method Perform(server: Server, wfId: string, contextState: State, i: nat, world: World, ghost table: Table,
                 ghost wf: Workflow)
      returns (ok: bool)
    requires wfId != "" && server.table == table[wfId := wf] && i < |wf.actions|
    modifies server
    ensures server.table == table[wfId := Performed(wf, contextState, i, world).0]
    ensures ok == Performed(wf, contextState, i, world).1
  {
    var action := server.table[wfId].actions[i];
    if contextState != Running {
      ok := ReportActionStatus(server, world.retries, world.reaches(i, Running), wfId, StatusReport(action, Running));
      if !ok {
        return;
      }
    }
    var status := StatusOf(world.runs(i));
    ok := ReportActionStatus(server, world.retries, world.reaches(i, status), wfId, StatusReport(action, status));
  }

  /** One round of the loop: how the turn ends, or `None` when the next action is the worker's own. */
  method Round(server: Server, workerId: string, wfId: string, contextState: State, i: nat, world: World,
               ghost table: Table, ghost wf: Workflow) returns (ended: Option<Ending>, ghost wf': Workflow)
    requires wfId != "" && server.table == table[wfId := wf] && i < |wf.actions|
    modifies server
    ensures wf'.actions == wf.actions && server.table == table[wfId := wf']
    ensures match ended
            case Some(e) => TurnFrom(wf, workerId, contextState, i, world) == (wf', e)
            case None =>
              && i + 1 < |wf.actions|
              && TurnFrom(wf, workerId, contextState, i, world) == TurnFrom(wf', workerId, contextState, i + 1, world)
  {
    var actions := server.table[wfId].actions;
    var ok := Perform(server, wfId, contextState, i, world, table, wf);
    wf' := Performed(wf, contextState, i, world).0;
    if !ok {
      ended := Some(Exits);
    } else if StatusOf(world.runs(i)) != Success {
      ended := Some(Returns);
    } else if |actions| == i + 1 || actions[i + 1].workerId != workerId {
      ended := Some(GoesOn);
    } else {
      ended := None;
    }
  }

  /** The loop over consecutive actions (worker.go:336-417). */
  method ActionLoop(server: Server, workerId: string, wfId: string, contextState: State, start: nat, world: World)
      returns (ending: Ending)
    requires wfId != "" && wfId in server.table && start < |server.table[wfId].actions|
    modifies server
    ensures var r := TurnFrom(old(server.table)[wfId], workerId, contextState, start, world);
            server.table == old(server.table)[wfId := r.0] && ending == r.1
  {
    var actionIndex: nat, ended: Option<Ending> := start, None;
    ghost var table, wf := server.table, server.table[wfId];
    ghost var r := TurnFrom(wf, workerId, contextState, start, world);
    while ended.None?
      invariant server.table == table[wfId := wf] && actionIndex < |wf.actions|
      invariant ended.None? ==> TurnFrom(wf, workerId, contextState, actionIndex, world) == r
      invariant ended.Some? ==> r == (wf, ended.value)
      decreases if ended.None? then |wf.actions| - actionIndex else 0
    {
      ended, wf := Round(server, workerId, wfId, contextState, actionIndex, world, table, wf);
      if ended.None? {
        actionIndex := actionIndex + 1;
      }
    }
    ending := ended.value;
  }

  function ContextTurn(wf: Workflow, workerId: string, row: Row, world: World): (Workflow, Ending) {
    match SelectTurn(row, wf.actions, workerId)
    case NotMine => (wf, GoesOn)
    case NoSuchAction => (wf, Panics)
    case Take(i) => TurnFrom(wf, workerId, row.state, i, world)
  }

  /** The receive loop's body for one context, which may show a row long gone: select the turn, then
      run the action loop. */
  method ProcessContext(server: Server, workerId: string, context: Offer, world: World) returns (ending: Ending)
    requires context.wf != "" && context.wf in server.table
    modifies server
    ensures var r := ContextTurn(old(server.table)[context.wf], workerId, context.row, world);
            server.table == old(server.table)[context.wf := r.0] && ending == r.1
  {
    var actions := server.table[context.wf].actions;
    var turn, actionIndex := false, 0;
    ending := GoesOn;
    if context.row.action == "" {
      if |actions| == 0 {
        return Panics;
      }
      turn := actions[0].workerId == workerId;
    } else {
      match context.row.state {
        case Success =>
          if IsLastAction(context.row, actions) {
            return;
          }
          actionIndex := context.row.index + 1;
        case Failed => return;
        case Timeout => return;
        case _ => actionIndex := context.row.index;
      }
      if !(0 <= actionIndex < |actions|) {
        return Panics;
      }
      turn := actions[actionIndex].workerId == workerId;
    }
    if turn {
      ending := ActionLoop(server, workerId, context.wf, context.row.state, actionIndex, world);
    }
  }

  // ---------------------------------------------------------------- turns over an orderly workflow

  /** Sending the next report about the action whose turn it is, over an open orderly workflow: it is
      recorded iff it gets through, unless it is a result for an action that was never announced. */
  lemma SentNext(wf: Workflow, i: nat, status: State, world: World)
    requires world.retries >= 1 && Orderly(wf) && Open(wf.log) && |wf.log| / 2 == i < |wf.actions|
    requires if status == Running then |wf.log| % 2 == 0 else IsResult(status) && wf.log != []
    ensures var r := Sent(wf, i, status, world);
            && r.1 == (GetsThrough(world, i, status) && (status == Running || |wf.log| % 2 == 1)) && Orderly(r.0)
            && r.0.log == if r.1 then wf.log + [StatusReport(wf.actions[i], status)] else wf.log
  {
    DecideNext(wf.actions, wf.log, StatusReport(wf.actions[i], status));
  }

  /** The workflow an orderly one becomes with this log. */
  function Settled(wf: Workflow, log: seq<Report>): Workflow
    requires |log| <= 2 * |wf.actions|
  {
    wf.(log := log, row := RowAfter(wf.actions, log))
  }

  /** An orderly workflow with the reports on action `i` added that get through. */
  function WithEvents(wf: Workflow, i: nat, world: World): (wf': Workflow)
    requires i < |wf.actions| && |wf.log| + 2 <= 2 * |wf.actions|
  {
    Settled(wf, wf.log + Events(wf.actions[i], i, world))
  }

  /** The reports on an action that the worker announces are recorded as far as they get through. */
  lemma PerformedEvents(wf: Workflow, contextState: State, i: nat, world: World)
    requires world.retries >= 1 && Orderly(wf) && Open(wf.log) && |wf.log| == 2 * i && i < |wf.actions|
    requires contextState != Running
    ensures Performed(wf, contextState, i, world) == (WithEvents(wf, i, world), BothGetThrough(world, i))
  {
    SentNext(wf, i, Running, world);
    var wf1 := Sent(wf, i, Running, world).0;
    if GetsThrough(world, i, Running) {
      SentNext(wf1, i, StatusOf(world.runs(i)), world);
      var wf2 := Sent(wf1, i, StatusOf(world.runs(i)), world).0;
      assert wf2.log == wf.log + Events(wf.actions[i], i, world);
    } else {
      assert wf1.log == wf.log + Events(wf.actions[i], i, world);
    }
  }

  /** An orderly workflow after an announced turn from action `i` on. */
  function Scripted(wf: Workflow, workerId: string, i: nat, world: World): Workflow
    requires |wf.log| == 2 * i && i < |wf.actions|
  {
    Settled(wf, wf.log + Script(wf.actions, workerId, i, world))
  }

  lemma ScriptedStep(wf: Workflow, workerId: string, i: nat, world: World)
    requires world.retries >= 1 && |wf.log| == 2 * i && i < |wf.actions|
    ensures Scripted(wf, workerId, i, world) ==
            if GoesOnAfter(wf.actions, workerId, i, world)
              then Scripted(WithEvents(wf, i, world), workerId, i + 1, world)
            else WithEvents(wf, i, world)
  {
    var events := Events(wf.actions[i], i, world);
    if GoesOnAfter(wf.actions, workerId, i, world) {
      AppendAssociates(wf.log, events, Script(wf.actions, workerId, i + 1, world));
    } else {
      AppendAssociates(wf.log, events, []);
    }
  }

  lemma AppendAssociates(a: seq<Report>, b: seq<Report>, c: seq<Report>)
    ensures a + (b + c) == (a + b) + c && b + [] == b
  {
  }

  /** On each action of the turn from action `i` on, the reports that get through are recorded. */
  predicate Smooth(wf: Workflow, workerId: string, contextState: State, i: nat, world: World)
    requires world.retries >= 1 && |wf.log| == 2 * i && i < |wf.actions|
    decreases |wf.actions| - i
  {
    var wf' := WithEvents(wf, i, world);
    && Performed(wf, contextState, i, world) == (wf', BothGetThrough(world, i))
    && (GoesOnAfter(wf.actions, workerId, i, world) ==> Smooth(wf', workerId, contextState, i + 1, world))
  }

  /** Such a turn is worked off by the script. */
  lemma {:induction false} SmoothByScript(wf: Workflow, workerId: string, contextState: State, i: nat, world: World)
    requires world.retries >= 1 && |wf.log| == 2 * i && i < |wf.actions| && Smooth(wf, workerId, contextState, i, world)
    ensures TurnFrom(wf, workerId, contextState, i, world) ==
            (Scripted(wf, workerId, i, world), ScriptEnding(wf.actions, workerId, i, world))
    decreases |wf.actions| - i
  {
    ScriptedStep(wf, workerId, i, world);
    if GoesOnAfter(wf.actions, workerId, i, world) {
      SmoothByScript(WithEvents(wf, i, world), workerId, contextState, i + 1, world);
    }
  }

  lemma OrderlyEvents(wf: Workflow, i: nat, world: World) returns (wf': Workflow)
    requires Orderly(wf) && Open(wf.log) && |wf.log| == 2 * i && i < |wf.actions|
    ensures wf' == WithEvents(wf, i, world) && Orderly(wf')
  {
    var a, status := wf.actions[i], StatusOf(world.runs(i));
    wf' := WithEvents(wf, i, world);
    DisciplinedAppend(wf.actions, wf.log, StatusReport(a, Running));
    DisciplinedAppend(wf.actions, wf.log + [StatusReport(a, Running)], StatusReport(a, status));
    assert |Events(a, i, world)| == 0 ==> wf'.log == wf.log;
    assert |Events(a, i, world)| == 2 ==> wf'.log == wf.log + [StatusReport(a, Running)] + [StatusReport(a, status)];
  }

  lemma {:induction false} OrderlyIsSmooth(wf: Workflow, workerId: string, contextState: State, i: nat, world: World)
    requires world.retries >= 1 && Orderly(wf) && Open(wf.log) && |wf.log| == 2 * i && i < |wf.actions|
    requires contextState != Running
    ensures Smooth(wf, workerId, contextState, i, world)
    decreases |wf.actions| - i
  {
    PerformedEvents(wf, contextState, i, world);
    if GoesOnAfter(wf.actions, workerId, i, world) {
      var wf' := OrderlyEvents(wf, i, world);
      OrderlyIsSmooth(wf', workerId, contextState, i + 1, world);
    }
  }

  lemma {:induction false} ScriptedOrderly(wf: Workflow, workerId: string, i: nat, world: World) returns (wf': Workflow)
    requires world.retries >= 1 && Orderly(wf) && Open(wf.log) && |wf.log| == 2 * i && i < |wf.actions|
    ensures wf' == Scripted(wf, workerId, i, world) && Orderly(wf')
    decreases |wf.actions| - i
  {
    ScriptedStep(wf, workerId, i, world);
    wf' := OrderlyEvents(wf, i, world);
    if GoesOnAfter(wf.actions, workerId, i, world) {
      wf' := ScriptedOrderly(wf', workerId, i + 1, world);
    }
  }

  /** A turn that the worker announces is worked off by the script. */
  lemma AnnouncedTurn(wf: Workflow, workerId: string, contextState: State, i: nat, world: World)
    requires world.retries >= 1 && Orderly(wf) && Open(wf.log) && |wf.log| == 2 * i && i < |wf.actions|
    requires contextState != Running
    ensures var r := TurnFrom(wf, workerId, contextState, i, world);
            Orderly(r.0) && TurnOutcome(wf.actions, workerId, i, false, world, wf.log, r.0.log, r.1)
  {
    OrderlyIsSmooth(wf, workerId, contextState, i, world);
    SmoothByScript(wf, workerId, contextState, i, world);
    var wf' := ScriptedOrderly(wf, workerId, i, world);
  }

  /** With less than one retry nothing is sent, and the turn goes on as if everything were recorded. */
  lemma {:induction false} SilentTurn(wf: Workflow, workerId: string, contextState: State, i: nat, world: World)
    requires world.retries < 1 && i < |wf.actions|
    ensures TurnFrom(wf, workerId, contextState, i, world) == (wf, ScriptEnding(wf.actions, workerId, i, world))
    decreases |wf.actions| - i
  {
    if GoesOnAfter(wf.actions, workerId, i, world) {
      SilentTurn(wf, workerId, contextState, i + 1, world);
    }
  }

  /** The result of a resumed action is recorded if it gets through. */
  lemma ResumedResult(wf: Workflow, i: nat, world: World) returns (wf': Workflow)
    requires world.retries >= 1 && Orderly(wf) && Open(wf.log) && |wf.log| == 2 * i + 1 && i < |wf.actions|
    ensures Performed(wf, Running, i, world) == (wf', GetsThrough(world, i, StatusOf(world.runs(i))))
    ensures Orderly(wf') && wf'.actions == wf.actions
    ensures wf'.log == if GetsThrough(world, i, StatusOf(world.runs(i)))
                       then wf.log + [StatusReport(wf.actions[i], StatusOf(world.runs(i)))] else wf.log
  {
    SentNext(wf, i, StatusOf(world.runs(i)), world);
    wf' := Sent(wf, i, StatusOf(world.runs(i)), world).0;
  }

  /** The result of an action that was never announced is not. */
  lemma UnannouncedResult(wf: Workflow, i: nat, world: World)
    requires world.retries >= 1 && Orderly(wf) && Open(wf.log) && |wf.log| == 2 * i && 0 < i < |wf.actions|
    ensures Performed(wf, Running, i, world) == (wf, false)
  {
    SentNext(wf, i, StatusOf(world.runs(i)), world);
  }

  /** A resumed turn adds one event, and the next action, never announced, makes the worker exit. */
  lemma ResumedTurn(wf: Workflow, workerId: string, i: nat, world: World)
    requires world.retries >= 1 && Orderly(wf) && Open(wf.log) && |wf.log| == 2 * i + 1 && i < |wf.actions|
    ensures var r := TurnFrom(wf, workerId, Running, i, world);
            Orderly(r.0) && TurnOutcome(wf.actions, workerId, i, true, world, wf.log, r.0.log, r.1)
  {
    var wf' := ResumedResult(wf, i, world);
    var status := StatusOf(world.runs(i));
    if GetsThrough(world, i, status) && status == Success && i + 1 < |wf.actions|
      && wf.actions[i + 1].workerId == workerId {
      UnannouncedResult(wf', i + 1, world);
    }
  }

  /** What becomes of a workflow when a worker processes a context that shows its row. */
  predicate ContextOutcome(wf: Workflow, wf': Workflow, workerId: string, world: World, ending: Ending) {
    && wf'.actions == wf.actions && wf'.members == wf.members
    && match SelectTurn(wf.row, wf.actions, workerId)
       case NotMine => ending == GoesOn && wf' == wf
       case NoSuchAction => ending == Panics && wf' == wf && wf.actions == []
       case Take(i) =>
         && i < |wf.actions|
         && TurnOutcome(wf.actions, workerId, i, wf.row.state == Running, world, wf.log, wf'.log, ending)
  }

  /** A worker that receives the current row of an orderly workflow, in whatever world, leaves it
      orderly, with the outcome of its turn. */
  lemma ContextTurnExact(wf: Workflow, workerId: string, world: World)
    requires Orderly(wf)
    ensures var r := ContextTurn(wf, workerId, wf.row, world);
            Orderly(r.0) && ContextOutcome(wf, r.0, workerId, world, r.1)
  {
    if wf.log != [] {
      assert DisciplinedEvent(wf.actions, wf.log, |wf.log| - 1);
    }
    var turn := SelectTurn(wf.row, wf.actions, workerId);
    if turn.Take? {
      if world.retries < 1 {
        SilentTurn(wf, workerId, wf.row.state, turn.index, world);
        SilentScript(wf.actions, workerId, turn.index, world);
      } else if wf.row.state == Running {
        ResumedTurn(wf, workerId, turn.index, world);
      } else {
        AnnouncedTurn(wf, workerId, wf.row.state, turn.index, world);
      }
    }
  }

  // ---------------------------------------------------------------- what the script is

  /** Event `e` of a log, in terms of the execution: RUNNING, or SUCCESS for an execution that succeeded
      without an error, TIMEOUT for one that timed out, and FAILED for any other. */
  predicate Tells(a: WorkflowAction, run: Execution, e: nat, r: Report) {
    && r.taskName == a.taskName && r.actionName == a.name && r.workerId == a.workerId
    && r.status == if e % 2 == 0 then Running
                   else if run.state == Timeout then Timeout
                   else if run.state == Success && !run.failed then Success
                   else Failed
  }

  lemma EventsTell(a: WorkflowAction, i: nat, world: World, e: nat)
    requires e < |Events(a, i, world)|
    ensures Tells(a, world.runs(i), e, Events(a, i, world)[e])
  {
  }

  lemma {:induction false} ScriptTells(actions: seq<WorkflowAction>, workerId: string, i: nat, world: World, e: nat)
    requires i < |actions| && world.retries >= 1 && e < |Script(actions, workerId, i, world)|
    ensures i + e / 2 < |actions|
    ensures Tells(actions[i + e / 2], world.runs(i + e / 2), e, Script(actions, workerId, i, world)[e])
    decreases |actions| - i
  {
    var events, script := Events(actions[i], i, world), Script(actions, workerId, i, world);
    if e < |events| {
      EventsTell(actions[i], i, world, e);
      assert script[e] == events[e] && e / 2 == 0;
    } else {
      var rest := Script(actions, workerId, i + 1, world);
      assert script == events + rest && |events| == 2;
      assert script[e] == rest[e - 2] && (e - 2) / 2 == e / 2 - 1 && (e - 2) % 2 == e % 2;
      ScriptTells(actions, workerId, i + 1, world, e - 2);
    }
  }

  /** The events of an announced turn at action `i`. */
  lemma AnnouncedTells(actions: seq<WorkflowAction>, workerId: string, i: nat, world: World, log: seq<Report>, e: nat)
    requires i < |actions| && world.retries >= 1 && |log| == 2 * i
    requires |log| <= e < |log + Script(actions, workerId, i, world)|
    ensures e / 2 < |actions|
    ensures Tells(actions[e / 2], world.runs(e / 2), e, (log + Script(actions, workerId, i, world))[e])
  {
    ScriptTells(actions, workerId, i, world, e - 2 * i);
    assert i + (e - 2 * i) / 2 == e / 2 && (e - 2 * i) % 2 == e % 2;
  }

  /** The position an orderly workflow's turn starts at. */
  lemma TurnPosition(wf: Workflow, workerId: string)
    requires Orderly(wf) && SelectTurn(wf.row, wf.actions, workerId).Take?
    ensures var i := SelectTurn(wf.row, wf.actions, workerId).index;
            i < |wf.actions| && |wf.log| == 2 * i + if wf.row.state == Running then 1 else 0
  {
    if wf.log != [] {
      assert DisciplinedEvent(wf.actions, wf.log, |wf.log| - 1);
    }
  }

  /** Every event that a worker's turn adds tells of its own action and execution: RUNNING, SUCCESS,
      TIMEOUT or FAILED. */
  lemma TurnTells(wf: Workflow, workerId: string, world: World, log': seq<Report>, e: nat)
    requires Orderly(wf) && log' == ContextTurn(wf, workerId, wf.row, world).0.log && |wf.log| <= e < |log'|
    ensures e / 2 < |wf.actions| && Tells(wf.actions[e / 2], world.runs(e / 2), e, log'[e])
  {
    ContextTurnExact(wf, workerId, world);
    TurnPosition(wf, workerId);
    var i := SelectTurn(wf.row, wf.actions, workerId).index;
    OutcomeTells(wf.actions, workerId, i, wf.row.state == Running, world, wf.log, log',
                 ContextTurn(wf, workerId, wf.row, world).1, e);
  }

  lemma OutcomeTells(actions: seq<WorkflowAction>, workerId: string, i: nat, resumed: bool, world: World,
                     log: seq<Report>, log': seq<Report>, ending: Ending, e: nat)
    requires i < |actions| && TurnOutcome(actions, workerId, i, resumed, world, log, log', ending)
    requires |log| == (2 * i + if resumed then 1 else 0) && |log| <= e < |log'|
    ensures e / 2 < |actions| && Tells(actions[e / 2], world.runs(e / 2), e, log'[e])
  {
    if world.retries < 1 {
      SilentScript(actions, workerId, i, world);
    } else if !resumed {
      AnnouncedTells(actions, workerId, i, world, log, e);
    }
  }

  /** Every report gets through. */
  ghost predicate Connected(world: World) {
    forall i, status :: GetsThrough(world, i, status)
  }

  /** Lost reports only cut the script short. */
  lemma {:induction false} ScriptIsPrefix(actions: seq<WorkflowAction>, workerId: string, i: nat, world: World,
                                          full: World)
    requires i < |actions| && Connected(full) && full.runs == world.runs
    ensures Script(actions, workerId, i, world) <= Script(actions, workerId, i, full)
    decreases |actions| - i
  {
    assert BothGetThrough(full, i);
    if world.retries < 1 {
      SilentScript(actions, workerId, i, world);
    } else if GoesOnAfter(actions, workerId, i, world) {
      ScriptIsPrefix(actions, workerId, i + 1, world, full);
      assert Events(actions[i], i, world) == Events(actions[i], i, full);
    }
  }

  lemma {:induction false} SilentScript(actions: seq<WorkflowAction>, workerId: string, i: nat, world: World)
    requires i < |actions| && world.retries < 1
    ensures Script(actions, workerId, i, world) == []
    decreases |actions| - i
  {
    if GoesOnAfter(actions, workerId, i, world) {
      SilentScript(actions, workerId, i + 1, world);
    }
  }
}
