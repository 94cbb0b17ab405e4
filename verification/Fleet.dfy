/** The Postgres-backed server together with any number of workers, as a step system: workflows are
    created, worker processes start, poll, receive, execute, report, retry, and crash, interleaved in
    any way.  One process runs per worker id; each RPC is one atomic step; an attempt that fails has
    no effect. */
module Fleet {
  import opened Types
  import opened RowProtocol
  import opened DbServer
  import opened Discipline
  import opened WorkerLoop

  /** The variables of the action loop: the workflow, the state in the context that was received,
      and the action index. */
  datatype Turn = Turn(wf: string, contextState: State, index: nat)

  datatype Pc =
    | Receiving
    | Announcing(turn: Turn, tried: nat)
    | Executing(turn: Turn)
    | Concluding(turn: Turn, status: State, tried: nat)

  datatype Process = Process(retries: int, stream: seq<Offer>, pc: Pc)

  datatype System = System(table: Table, procs: map<string, Process>)

  datatype Step =
    | Create(wf: string, actions: seq<WorkflowAction>, members: set<string>)
    | Start(worker: string, retries: int)
    | Crash(worker: string)
    | Poll(worker: string, stream: seq<Offer>)
    | Receive(worker: string)
    | Execute(worker: string, run: Execution)
    | Lose(worker: string)
    | Deliver(worker: string)
    | GiveUp(worker: string)

  function Initial(): System {
    System(map[], map[])
  }

  /** The loop's entry for an action: RUNNING is sent unless the received context was at RUNNING. */
  function Begin(turn: Turn): Pc {
    if turn.contextState != Running then Announcing(turn, 0) else Executing(turn)
  }

  predicate Sending(s: System, worker: string) {
    && worker in s.procs
    && (s.procs[worker].pc.Announcing? || s.procs[worker].pc.Concluding?)
    && s.procs[worker].pc.turn.wf in s.table
    && s.procs[worker].pc.turn.index < |s.table[s.procs[worker].pc.turn.wf].actions|
  }

  /** The report a process at such a point sends. */
  function ReportOf(actions: seq<WorkflowAction>, pc: Pc): Report
    requires (pc.Announcing? || pc.Concluding?) && pc.turn.index < |actions|
  {
    StatusReport(actions[pc.turn.index], if pc.Announcing? then Running else pc.status)
  }

  /** The process after its report went through; `None` when ProcessWorkflowActions returns. */
  function Reported(actions: seq<WorkflowAction>, worker: string, p: Process): Option<Process>
    requires p.pc.Announcing? || p.pc.Concluding?
  {
    var turn := p.pc.turn;
    if p.pc.Announcing? then Some(p.(pc := Executing(turn)))
    else if p.pc.status != Success then None
    else if turn.index + 1 < |actions| && actions[turn.index + 1].workerId == worker
    then Some(p.(pc := Begin(turn.(index := turn.index + 1))))
    else Some(p.(pc := Receiving))
  }

  /** The process after it has received a context; `None` when it panics. */
  function Received(actions: seq<WorkflowAction>, worker: string, p: Process): Option<Process>
    requires p.stream != []
  {
    var o, rest := p.stream[0], p.(stream := p.stream[1..]);
    match SelectTurn(o.row, actions, worker)
    case NotMine => Some(rest)
    case Take(i) => Some(rest.(pc := Begin(Turn(o.wf, o.row.state, i))))
    case NoSuchAction => None
  }

  function Tried(pc: Pc): Pc
    requires pc.Announcing? || pc.Concluding?
  {
    pc.(tried := pc.tried + 1)
  }

  predicate Enabled(s: System, step: Step) {
    match step
    case Create(wf, actions, members) => wf != "" && wf !in s.table && WellNamed(actions)
    case Start(w, retries) => w !in s.procs
    case Crash(w) => w in s.procs
    case Poll(w, stream) =>
      && w != "" && w in s.procs && s.procs[w].pc.Receiving? && s.procs[w].stream == []
      && IsStream(s.table, w, stream)
    case Receive(w) =>
      w in s.procs && s.procs[w].pc.Receiving? && s.procs[w].stream != [] && s.procs[w].stream[0].wf in s.table
    case Execute(w, run) => w in s.procs && s.procs[w].pc.Executing?
    case Lose(w) => Sending(s, w) && s.procs[w].pc.tried < s.procs[w].retries
    case Deliver(w) => Sending(s, w) && s.procs[w].pc.tried < s.procs[w].retries
    case GiveUp(w) => Sending(s, w) && s.procs[w].pc.tried >= s.procs[w].retries
  }

  function SetProc(s: System, worker: string, p: Option<Process>): System {
    s.(procs := if p.Some? then s.procs[worker := p.value] else s.procs - {worker})
  }

  /** One step; a step that is not enabled changes nothing. */
  function Next(s: System, step: Step): System {
    if !Enabled(s, step) then s else
    match step
    case Create(wf, actions, members) => s.(table := s.table[wf := Fresh(actions, members)])
    case Start(w, retries) => SetProc(s, w, Some(Process(retries, [], Receiving)))
    case Crash(w) => SetProc(s, w, None)
    case Poll(w, stream) => SetProc(s, w, Some(s.procs[w].(stream := stream)))
    case Receive(w) =>
      SetProc(s, w, Received(s.table[s.procs[w].stream[0].wf].actions, w, s.procs[w]))
    case Execute(w, run) => SetProc(s, w, Some(s.procs[w].(pc := Concluding(s.procs[w].pc.turn, StatusOf(run), 0))))
    case Lose(w) => SetProc(s, w, Some(s.procs[w].(pc := Tried(s.procs[w].pc))))
    case Deliver(w) =>
      var p := s.procs[w];
      var f := p.pc.turn.wf;
      var req := ReportOf(s.table[f].actions, p.pc);
      if Decide(s.table[f].row, s.table[f].actions, req).Accepted? then
        SetProc(s.(table := s.table[f := Apply(s.table[f], req)]), w, Reported(s.table[f].actions, w, p))
      else
        SetProc(s, w, Some(p.(pc := Tried(p.pc))))
    case GiveUp(w) =>
      var p := s.procs[w];
      if p.pc.tried == 0 then SetProc(s, w, Reported(s.table[p.pc.turn.wf].actions, w, p))
      else SetProc(s, w, None)
  }

  /** The state after a run. */
  function After(steps: seq<Step>): System {
    if steps == [] then Initial() else Next(After(steps[..|steps| - 1]), steps[|steps| - 1])
  }

  lemma AfterSnoc(steps: seq<Step>, step: Step)
    ensures After(steps + [step]) == Next(After(steps), step)
  {
    assert (steps + [step])[..|steps|] == steps;
  }

  // ---------------------------------------------------------------- the invariant

  /** From the third action on, whoever runs an action also ran the one before it. */
  predicate SameCrew(wf: Workflow)
    requires |wf.log| <= 2 * |wf.actions|
  {
    forall j :: 2 <= j < |wf.actions| && 2 * j < |wf.log| ==> wf.actions[j].workerId == wf.actions[j - 1].workerId
  }

  predicate WorkflowInv(wf: Workflow) {
    Orderly(wf) && SameCrew(wf)
  }

  /** The action the log is at is action `index`, and it belongs to `worker`. */
  predicate AtTurn(wf: Workflow, worker: string, index: nat) {
    && Open(wf.log) && |wf.log| / 2 == index < |wf.actions| && wf.actions[index].workerId == worker
  }

  /** `announced`: the process is past the point where RUNNING is sent.  It may not have been sent,
      if the received context was at RUNNING and the worker has moved on. */
  predicate OnTurn(wf: Workflow, worker: string, turn: Turn, announced: bool) {
    && AtTurn(wf, worker, turn.index)
    && if turn.contextState == Running then announced && wf.log != []
       else |wf.log| % 2 == (if announced then 1 else 0)
            && (!announced && turn.index >= 2 ==> wf.actions[turn.index - 1].workerId == worker)
  }

  predicate TurnInv(table: Table, worker: string, turn: Turn, announced: bool) {
    turn.wf in table && OnTurn(table[turn.wf], worker, turn, announced)
  }

  predicate PcInv(table: Table, worker: string, pc: Pc) {
    match pc
    case Receiving => true
    case Announcing(turn, _) => TurnInv(table, worker, turn, false)
    case Executing(turn) => TurnInv(table, worker, turn, true)
    case Concluding(turn, status, _) => TurnInv(table, worker, turn, true) && IsResult(status)
  }

  /** What a process that does send its reports knows: its stream is up to date, and it is its turn. */
  predicate ProcessInv(table: Table, worker: string, p: Process) {
    && IsStream(table, worker, p.stream)
    && PcInv(table, worker, p.pc)
    && (!p.pc.Receiving? ==> forall i :: 0 <= i < |p.stream| ==> p.stream[i].wf != p.pc.turn.wf)
  }

  predicate Inv(s: System) {
    && (forall f :: f in s.table ==> WorkflowInv(s.table[f]))
    && (forall w :: w in s.procs && s.procs[w].retries >= 1 ==> ProcessInv(s.table, w, s.procs[w]))
  }

  /** A workflow is offered only to the worker at turn: before the first action, at RUNNING, or after
      the first action. */
  lemma OfferedAtTurn(wf: Workflow, worker: string)
    requires Orderly(wf) && Applicable(wf.row, wf.actions, worker) == Send
    ensures |wf.log| == 0 || |wf.log| % 2 == 1 || |wf.log| == 2
    ensures SelectTurn(wf.row, wf.actions, worker) == Take(|wf.log| / 2)
    ensures AtTurn(wf, worker, |wf.log| / 2)
    ensures wf.row.state == Running <==> |wf.log| % 2 == 1
  {
    if wf.log != [] {
      assert DisciplinedEvent(wf.actions, wf.log, |wf.log| - 1);
    }
  }

  /** A process other than the one at turn knows nothing about workflow `f` that a change could
      invalidate. */
  lemma OthersUnaffected(table: Table, table': Table, f: string, worker: string, w: string, p: Process)
    requires f in table && AtTurn(table[f], worker, |table[f].log| / 2) && WorkflowInv(table[f])
    requires table'.Keys == table.Keys && forall g :: g in table && g != f ==> table'[g] == table[g]
    requires w != worker && ProcessInv(table, w, p)
    ensures ProcessInv(table', w, p)
  {
    forall i | 0 <= i < |p.stream|
      ensures Offered(table', w, p.stream[i])
    {
      assert Offered(table, w, p.stream[i]);
      if p.stream[i].wf == f {
        OfferedAtTurn(table[f], w);
      }
    }
  }

  lemma CreateKeeps(s: System, wf: string, actions: seq<WorkflowAction>, members: set<string>)
    requires Inv(s) && Enabled(s, Create(wf, actions, members))
    ensures Inv(Next(s, Create(wf, actions, members)))
  {
    var s' := Next(s, Create(wf, actions, members));
    forall w | w in s'.procs && s'.procs[w].retries >= 1
      ensures ProcessInv(s'.table, w, s'.procs[w])
    {
      var p := s.procs[w];
      assert ProcessInv(s.table, w, p);
      forall i | 0 <= i < |p.stream|
        ensures Offered(s'.table, w, p.stream[i])
      {
        assert Offered(s.table, w, p.stream[i]);
      }
    }
  }

  /** The report a process sends is accepted as the next event of the discipline, or, when it is the
      result of an action that was never announced, refused. */
  lemma DeliveryOutcome(wf: Workflow, worker: string, pc: Pc)
    requires WorkflowInv(wf) && (pc.Announcing? || pc.Concluding?)
    requires OnTurn(wf, worker, pc.turn, pc.Concluding?) && (pc.Concluding? ==> IsResult(pc.status))
    ensures var reply := Decide(wf.row, wf.actions, ReportOf(wf.actions, pc));
            if pc.Concluding? && |wf.log| % 2 == 0 then !reply.Accepted?
            else reply.Accepted? && WorkflowInv(Apply(wf, ReportOf(wf.actions, pc)))
  {
    DecideNext(wf.actions, wf.log, ReportOf(wf.actions, pc));
  }

  /** After an accepted report the sender's turn, if it goes on, is the one the log is at. */
  lemma AcceptedTurn(wf: Workflow, worker: string, p: Process)
    requires WorkflowInv(wf) && (p.pc.Announcing? || p.pc.Concluding?)
    requires OnTurn(wf, worker, p.pc.turn, p.pc.Concluding?) && (p.pc.Concluding? ==> IsResult(p.pc.status))
    requires Decide(wf.row, wf.actions, ReportOf(wf.actions, p.pc)).Accepted?
    ensures var p' := Reported(wf.actions, worker, p);
            p'.Some? && !p'.value.pc.Receiving? ==>
              && !p'.value.pc.Concluding? && p'.value.pc.turn.wf == p.pc.turn.wf
              && OnTurn(Apply(wf, ReportOf(wf.actions, p.pc)), worker, p'.value.pc.turn, p'.value.pc.Executing?)
  {
  }

  /** The sender after an accepted report. */
  lemma SenderGoesOn(table: Table, worker: string, p: Process)
    requires ProcessInv(table, worker, p) && (p.pc.Announcing? || p.pc.Concluding?)
    requires var wf := table[p.pc.turn.wf];
             WorkflowInv(wf) && Decide(wf.row, wf.actions, ReportOf(wf.actions, p.pc)).Accepted?
    ensures var wf := table[p.pc.turn.wf];
            var p' := Reported(wf.actions, worker, p);
            p'.Some? ==> ProcessInv(table[p.pc.turn.wf := Apply(wf, ReportOf(wf.actions, p.pc))], worker, p'.value)
  {
    var wf := table[p.pc.turn.wf];
    AcceptedTurn(wf, worker, p);
    var table' := table[p.pc.turn.wf := Apply(wf, ReportOf(wf.actions, p.pc))];
    forall i | 0 <= i < |p.stream|
      ensures Offered(table', worker, p.stream[i])
    {
      assert Offered(table, worker, p.stream[i]);
    }
  }

  /** Replacing one process keeps the invariant if the new one keeps its part. */
  lemma SetProcKeeps(s: System, worker: string, p: Option<Process>)
    requires Inv(s)
    requires p.Some? && p.value.retries >= 1 ==> ProcessInv(s.table, worker, p.value)
    ensures Inv(SetProc(s, worker, p))
  {
  }

  /** An accepted report of the worker at turn concerns no other process. */
  lemma AcceptedKeepsOthers(s: System, f: string, worker: string, req: Report)
    requires Inv(s) && f in s.table && AtTurn(s.table[f], worker, |s.table[f].log| / 2)
    requires WorkflowInv(Apply(s.table[f], req))
    ensures Inv(System(s.table[f := Apply(s.table[f], req)], s.procs - {worker}))
  {
    var s' := System(s.table[f := Apply(s.table[f], req)], s.procs - {worker});
    forall w | w in s'.procs && s'.procs[w].retries >= 1
      ensures ProcessInv(s'.table, w, s'.procs[w])
    {
      assert w in s.procs && w != worker && s'.procs[w] == s.procs[w];
      OthersUnaffected(s.table, s'.table, f, worker, w, s.procs[w]);
    }
  }

  lemma InstallKeeps(s: System, f: string, wf: Workflow, worker: string, p: Option<Process>)
    requires Inv(System(s.table[f := wf], s.procs - {worker}))
    requires p.Some? ==> ProcessInv(s.table[f := wf], worker, p.value)
    ensures Inv(SetProc(s.(table := s.table[f := wf]), worker, p))
  {
    var rest := System(s.table[f := wf], s.procs - {worker});
    SetProcKeeps(rest, worker, p);
    assert SetProc(s.(table := s.table[f := wf]), worker, p).procs == SetProc(rest, worker, p).procs;
  }

  lemma AcceptedKeeps(s: System, worker: string, p: Process)
    requires Inv(s) && worker in s.procs && s.procs[worker] == p && ProcessInv(s.table, worker, p)
    requires p.pc.Announcing? || p.pc.Concluding?
    requires var wf := s.table[p.pc.turn.wf]; Decide(wf.row, wf.actions, ReportOf(wf.actions, p.pc)).Accepted?
    ensures var f := p.pc.turn.wf;
            var wf := s.table[f];
            Inv(SetProc(s.(table := s.table[f := Apply(wf, ReportOf(wf.actions, p.pc))]), worker,
                        Reported(wf.actions, worker, p)))
  {
    var f := p.pc.turn.wf;
    var wf := s.table[f];
    var wf' := Apply(wf, ReportOf(wf.actions, p.pc));
    var p' := Reported(wf.actions, worker, p);
    assert WorkflowInv(wf') by { DeliveryOutcome(wf, worker, p.pc); }
    assert Inv(System(s.table[f := wf'], s.procs - {worker})) by {
      AcceptedKeepsOthers(s, f, worker, ReportOf(wf.actions, p.pc));
    }
    assert p'.Some? ==> ProcessInv(s.table[f := wf'], worker, p'.value) by { SenderGoesOn(s.table, worker, p); }
    InstallKeeps(s, f, wf', worker, p');
  }

  lemma DeliverKeeps(s: System, worker: string)
    requires Inv(s) && Enabled(s, Deliver(worker))
    ensures Inv(Next(s, Deliver(worker)))
  {
    var p := s.procs[worker];
    var wf := s.table[p.pc.turn.wf];
    assert ProcessInv(s.table, worker, p);
    if Decide(wf.row, wf.actions, ReportOf(wf.actions, p.pc)).Accepted? {
      AcceptedKeeps(s, worker, p);
    } else {
      SetProcKeeps(s, worker, Some(p.(pc := Tried(p.pc))));
    }
  }

  lemma ReceivedInv(table: Table, worker: string, p: Process)
    requires ProcessInv(table, worker, p) && p.pc.Receiving? && p.stream != [] && WorkflowInv(table[p.stream[0].wf])
    ensures var p' := Received(table[p.stream[0].wf].actions, worker, p);
            p'.Some? ==> ProcessInv(table, worker, p'.value)
  {
    assert Offered(table, worker, p.stream[0]);
    OfferedAtTurn(table[p.stream[0].wf], worker);
    var rest := p.stream[1..];
    assert forall i :: 0 <= i < |rest| ==> Offered(table, worker, rest[i]) && rest[i].wf != p.stream[0].wf;
  }

  lemma ReceiveKeeps(s: System, worker: string)
    requires Inv(s) && Enabled(s, Receive(worker))
    ensures Inv(SetProc(s, worker, Received(s.table[s.procs[worker].stream[0].wf].actions, worker, s.procs[worker])))
  {
    var p := s.procs[worker];
    if p.retries >= 1 {
      assert ProcessInv(s.table, worker, p) && WorkflowInv(s.table[p.stream[0].wf]);
      ReceivedInv(s.table, worker, p);
    }
    SetProcKeeps(s, worker, Received(s.table[p.stream[0].wf].actions, worker, p));
  }

  /** Every step keeps the invariant. */
  lemma StepKeeps(s: System, step: Step)
    requires Inv(s)
    ensures Inv(Next(s, step))
  {
    if Enabled(s, step) {
      match step
      case Create(wf, actions, members) => CreateKeeps(s, wf, actions, members);
      case Start(w, retries) => SetProcKeeps(s, w, Some(Process(retries, [], Receiving)));
      case Crash(w) => SetProcKeeps(s, w, None);
      case Poll(w, stream) => SetProcKeeps(s, w, Some(s.procs[w].(stream := stream)));
      case Receive(w) => ReceiveKeeps(s, w);
      case Execute(w, run) =>
        SetProcKeeps(s, w, Some(s.procs[w].(pc := Concluding(s.procs[w].pc.turn, StatusOf(run), 0))));
      case Lose(w) => SetProcKeeps(s, w, Some(s.procs[w].(pc := Tried(s.procs[w].pc))));
      case Deliver(w) => DeliverKeeps(s, w);
      case GiveUp(w) =>
        SetProcKeeps(s, w, if s.procs[w].pc.tried == 0
                           then Reported(s.table[s.procs[w].pc.turn.wf].actions, w, s.procs[w]) else None);
    }
  }

  lemma {:induction false} RunKeeps(steps: seq<Step>)
    ensures Inv(After(steps))
  {
    if steps != [] {
      RunKeeps(steps[..|steps| - 1]);
      StepKeeps(After(steps[..|steps| - 1]), steps[|steps| - 1]);
    }
  }

  // ---------------------------------------------------------------- the theorems

  /** In every run, every workflow's event log is disciplined and its row is the one the log stands
      for. */
  lemma EveryLogIsDisciplined(steps: seq<Step>, f: string)
    requires f in After(steps).table
    ensures var wf := After(steps).table[f];
            && Disciplined(wf.actions, wf.log)
            && wf.row == RowAfter(wf.actions, wf.log)
            && Replay(wf.actions, wf.log) == Some(wf.row)
  {
    RunKeeps(steps);
    var wf := After(steps).table[f];
    RowAfterIsReplay(wf.actions, wf.log);
  }

  /** Where the worker changes after the second action or later, the next action is never started:
      in no run does the log get past the SUCCESS before the change. */
  lemma HandoffBlocks(steps: seq<Step>, f: string, i: nat)
    requires f in After(steps).table
    requires 1 <= i && i + 1 < |After(steps).table[f].actions|
    requires After(steps).table[f].actions[i].workerId != After(steps).table[f].actions[i + 1].workerId
    ensures |After(steps).table[f].log| <= 2 * (i + 1)
  {
    var wf := After(steps).table[f];
    CrewKept(steps, f, wf);
    var j := i + 1;
    assert wf.actions[j].workerId != wf.actions[j - 1].workerId;
  }

  lemma CrewKept(steps: seq<Step>, f: string, wf: Workflow)
    requires f in After(steps).table && wf == After(steps).table[f]
    ensures |wf.log| <= 2 * |wf.actions| && SameCrew(wf)
  {
    RunKeeps(steps);
    assert WorkflowInv(wf);
  }
}
