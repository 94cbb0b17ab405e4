/** Workflows that never go on: which states of the Postgres-backed system are beyond recovery,
    whatever processes start, poll and report afterwards. */
module Stall {
  import opened Types
  import opened RowProtocol
  import opened DbServer
  import opened Discipline
  import opened WorkerLoop
  import opened Fleet

  // ---------------------------------------------------------------- logs only grow

  /** The workflow as stored later: same actions, same worker map, a log that continues the old one. */
  predicate Continues(wf: Workflow, wf': Workflow) {
    wf'.actions == wf.actions && wf'.members == wf.members && wf.log <= wf'.log
  }

  lemma StepContinues(s: System, step: Step, f: string)
    requires f in s.table
    ensures f in Next(s, step).table && Continues(s.table[f], Next(s, step).table[f])
  {
  }

  lemma {:induction false} RunContinues(steps: seq<Step>, steps': seq<Step>, f: string)
    requires steps <= steps' && f in After(steps).table
    ensures f in After(steps').table && Continues(After(steps).table[f], After(steps').table[f])
    decreases |steps'|
  {
    if steps != steps' {
      var front, last := steps'[..|steps'| - 1], steps'[|steps'| - 1];
      RunContinues(steps, front, f);
      StepContinues(After(front), last, f);
    }
  }

  // ---------------------------------------------------------------- doom

  /** The process announces its actions on workflow `f`, and its next report can still get through
      without ending the workflow. */
  predicate Carries(p: Process, f: string) {
    && p.retries >= 1 && !p.pc.Receiving? && p.pc.turn.wf == f && p.pc.turn.contextState != Running
    && match p.pc
       case Announcing(_, tried) => tried < p.retries
       case Executing(_) => true
       case Concluding(_, status, tried) => status == Success && tried < p.retries
  }

  predicate Carried(s: System, f: string) {
    exists w :: w in s.procs && Carries(s.procs[w], f)
  }

  /** Action `i`, neither the first nor the last one, has been announced, action `i + 1` has not, and
      no process carries the workflow. */
  predicate Doomed(s: System, f: string, i: nat) {
    && f in s.table && 1 <= i && i + 1 < |s.table[f].actions|
    && 2 * i + 1 <= |s.table[f].log| <= 2 * (i + 1)
    && !Carried(s, f)
  }

  lemma SetProcDoomed(s: System, worker: string, p: Option<Process>, f: string)
    requires !Carried(s, f) && (p.Some? ==> !Carries(p.value, f))
    ensures !Carried(SetProc(s, worker, p), f)
  {
  }

  /** The workflow is offered only while an action runs, and who takes it then does not carry it. */
  lemma ReceiveDoomed(s: System, w: string, f: string, i: nat)
    requires Inv(s) && Doomed(s, f, i) && Enabled(s, Receive(w))
    ensures Doomed(Next(s, Receive(w)), f, i)
  {
    var p := s.procs[w];
    var o := p.stream[0];
    if p.retries >= 1 && o.wf == f {
      assert ProcessInv(s.table, w, p) && Offered(s.table, w, o) && WorkflowInv(s.table[f]);
      OfferedAtTurn(s.table[f], w);
    }
    var p' := Received(s.table[o.wf].actions, w, p);
    assert p'.Some? ==> !Carries(p'.value, f);
    SetProcDoomed(s, w, p', f);
  }

  /** A process that does not carry the workflow can only add the result of action `i`. */
  lemma ReportDoomed(wf: Workflow, w: string, p: Process, f: string, i: nat)
    requires WorkflowInv(wf) && p.retries >= 1 && (p.pc.Announcing? || p.pc.Concluding?) && p.pc.tried < p.retries
    requires OnTurn(wf, w, p.pc.turn, p.pc.Concluding?) && (p.pc.Concluding? ==> IsResult(p.pc.status))
    requires p.pc.turn.wf == f && !Carries(p, f) && 2 * i + 1 <= |wf.log| <= 2 * (i + 1)
    ensures var req := ReportOf(wf.actions, p.pc);
            Decide(wf.row, wf.actions, req).Accepted? ==>
              && |Apply(wf, req).log| <= 2 * (i + 1)
              && (var p' := Reported(wf.actions, w, p); p'.Some? ==> !Carries(p'.value, f))
  {
    DeliveryOutcome(wf, w, p.pc);
  }

  lemma AcceptedDoomed(s: System, w: string, p: Process, f: string, i: nat, g: string, req: Report)
    requires Doomed(s, f, i) && Enabled(s, Deliver(w)) && p == s.procs[w] && ProcessInv(s.table, w, p)
             && g == p.pc.turn.wf
    requires WorkflowInv(s.table[g]) && req == ReportOf(s.table[g].actions, p.pc)
    requires Decide(s.table[g].row, s.table[g].actions, req).Accepted?
    ensures Doomed(SetProc(s.(table := s.table[g := Apply(s.table[g], req)]), w,
                           Reported(s.table[g].actions, w, p)), f, i)
  {
    assert !Carries(p, f);
    if g == f {
      ReportDoomed(s.table[f], w, p, f, i);
    }
    SetProcDoomed(s.(table := s.table[g := Apply(s.table[g], req)]), w, Reported(s.table[g].actions, w, p), f);
  }

  lemma DeliverDoomed(s: System, w: string, f: string, i: nat)
    requires Inv(s) && Doomed(s, f, i) && Enabled(s, Deliver(w))
    ensures Doomed(Next(s, Deliver(w)), f, i)
  {
    var p := s.procs[w];
    var g := p.pc.turn.wf;
    var req := ReportOf(s.table[g].actions, p.pc);
    assert !Carries(p, f);
    if Decide(s.table[g].row, s.table[g].actions, req).Accepted? {
      assert ProcessInv(s.table, w, p) && WorkflowInv(s.table[g]);
      AcceptedDoomed(s, w, p, f, i, g, req);
    } else {
      SetProcDoomed(s, w, Some(p.(pc := Tried(p.pc))), f);
    }
  }

  lemma StepDoomed(s: System, step: Step, f: string, i: nat)
    requires Inv(s) && Doomed(s, f, i)
    ensures Doomed(Next(s, step), f, i)
  {
    if Enabled(s, step) {
      match step
      case Create(wf, actions, members) =>
      case Start(w, retries) => SetProcDoomed(s, w, Some(Process(retries, [], Receiving)), f);
      case Crash(w) => SetProcDoomed(s, w, None, f);
      case Poll(w, stream) => SetProcDoomed(s, w, Some(s.procs[w].(stream := stream)), f);
      case Receive(w) => ReceiveDoomed(s, w, f, i);
      case Execute(w, run) =>
        SetProcDoomed(s, w, Some(s.procs[w].(pc := Concluding(s.procs[w].pc.turn, StatusOf(run), 0))), f);
      case Lose(w) => SetProcDoomed(s, w, Some(s.procs[w].(pc := Tried(s.procs[w].pc))), f);
      case Deliver(w) => DeliverDoomed(s, w, f, i);
      case GiveUp(w) =>
        SetProcDoomed(s, w, if s.procs[w].pc.tried == 0
                            then Reported(s.table[s.procs[w].pc.turn.wf].actions, w, s.procs[w]) else None, f);
    }
  }

  /** A doomed workflow stays doomed: whatever steps follow, its next action is never announced. */
  lemma {:induction false} DoomIsPermanent(steps: seq<Step>, steps': seq<Step>, f: string, i: nat)
    requires steps <= steps' && Doomed(After(steps), f, i)
    ensures Doomed(After(steps'), f, i)
    decreases |steps'|
  {
    if steps != steps' {
      var front, last := steps'[..|steps'| - 1], steps'[|steps'| - 1];
      DoomIsPermanent(steps, front, f, i);
      RunKeeps(front);
      StepDoomed(After(front), last, f, i);
    }
  }

  lemma DoomBoundsLog(steps: seq<Step>, steps': seq<Step>, f: string, i: nat)
    requires steps <= steps' && Doomed(After(steps), f, i)
    ensures f in After(steps').table && |After(steps').table[f].log| <= 2 * (i + 1)
  {
    DoomIsPermanent(steps, steps', f, i);
  }

  // ---------------------------------------------------------------- theorems

  /** Only the worker whose turn it is can carry a workflow. */
  lemma CarrierIsAtTurn(s: System, f: string, w: string)
    requires Inv(s) && f in s.table && w in s.procs && Carries(s.procs[w], f)
    ensures AtTurn(s.table[f], w, |s.table[f].log| / 2)
  {
    assert ProcessInv(s.table, w, s.procs[w]);
  }

  lemma CrashLeavesNoCarrier(s: System, f: string, w: string)
    requires Inv(s) && f in s.table && |s.table[f].log| / 2 < |s.table[f].actions|
    requires w == s.table[f].actions[|s.table[f].log| / 2].workerId
    ensures !Carried(Next(s, Crash(w)), f)
  {
    var s' := Next(s, Crash(w));
    forall v | v in s'.procs
      ensures !Carries(s'.procs[v], f)
    {
      if Carries(s'.procs[v], f) {
        CarrierIsAtTurn(s, f, v);
      }
    }
  }

  /** A crash of the worker at turn, during or right after any action but the first and the last,
      dooms the workflow. */
  lemma CrashDooms(steps: seq<Step>, f: string, w: string, i: nat)
    requires f in After(steps).table && 1 <= i && i + 1 < |After(steps).table[f].actions|
    requires 2 * i + 1 <= |After(steps).table[f].log| <= 2 * (i + 1)
    requires w == After(steps).table[f].actions[|After(steps).table[f].log| / 2].workerId
    ensures Doomed(After(steps + [Crash(w)]), f, i)
  {
    RunKeeps(steps);
    AfterSnoc(steps, Crash(w));
    CrashLeavesNoCarrier(After(steps), f, w);
  }

  lemma CrashBoundsLog(steps: seq<Step>, steps': seq<Step>, f: string, w: string, i: nat)
    requires f in After(steps).table && 1 <= i && i + 1 < |After(steps).table[f].actions|
    requires 2 * i + 1 <= |After(steps).table[f].log| <= 2 * (i + 1)
    requires w == After(steps).table[f].actions[|After(steps).table[f].log| / 2].workerId
    requires steps + [Crash(w)] <= steps'
    ensures f in After(steps').table && |After(steps').table[f].log| <= 2 * (i + 1)
  {
    CrashDooms(steps, f, w, i);
    DoomBoundsLog(steps + [Crash(w)], steps', f, i);
  }

  lemma StoredOrderly(steps: seq<Step>, f: string)
    requires f in After(steps).table
    ensures Orderly(After(steps).table[f])
  {
    RunKeeps(steps);
    assert WorkflowInv(After(steps).table[f]);
  }

  /** Without a new event the stored workflow is the same. */
  lemma NoEventNoChange(steps: seq<Step>, steps': seq<Step>, f: string)
    requires steps <= steps' && f in After(steps).table
    requires f in After(steps').table ==> |After(steps').table[f].log| <= |After(steps).table[f].log|
    ensures f in After(steps').table && After(steps').table[f] == After(steps).table[f]
  {
    RunContinues(steps, steps', f);
    StoredOrderly(steps, f);
    StoredOrderly(steps', f);
    assert After(steps').table[f].log == After(steps).table[f].log;
  }

  /** Such a crash strands the workflow: whatever steps follow, restart or not, at most the result of the action
      then running is still recorded. */
  lemma CrashStrands(steps: seq<Step>, steps': seq<Step>, f: string, w: string)
    requires f in After(steps).table
    requires var wf := After(steps).table[f];
             3 <= |wf.log| <= 2 * |wf.actions| - 2 && w == wf.actions[|wf.log| / 2].workerId
    requires steps + [Crash(w)] <= steps'
    ensures f in After(steps').table && Continues(After(steps).table[f], After(steps').table[f])
    ensures |After(steps').table[f].log| <= |After(steps).table[f].log| + |After(steps).table[f].log| % 2
  {
    var n := |After(steps).table[f].log|;
    var i := (n - 1) / 2;
    assert 2 * i + 1 <= n <= 2 * (i + 1) == n + n % 2;
    CrashBoundsLog(steps, steps', f, w, i);
    assert steps <= steps';
    RunContinues(steps, steps', f);
  }

  /** A workflow at SUCCESS of its second or a later action that no process carries never changes
      again, whatever steps follow.  A worker that resumed an action and moved on to the next one
      does not carry it. */
  lemma StallIsPermanent(steps: seq<Step>, steps': seq<Step>, f: string)
    requires steps <= steps' && f in After(steps).table && !Carried(After(steps), f)
    requires After(steps).table[f].row.state == Success && After(steps).table[f].row.index >= 1
    ensures f in After(steps').table && After(steps').table[f] == After(steps).table[f]
  {
    var wf := After(steps).table[f];
    StoredOrderly(steps, f);
    assert DisciplinedEvent(wf.actions, wf.log, |wf.log| - 1);
    if |wf.log| < 2 * |wf.actions| {
      DoomBoundsLog(steps, steps', f, |wf.log| / 2 - 1);
    } else {
      RunContinues(steps, steps', f);
      StoredOrderly(steps', f);
    }
    NoEventNoChange(steps, steps', f);
  }

  /** Where the worker changes after the second action or later, the SUCCESS before the change is the
      last event ever: whatever steps follow and whatever processes there are, nothing changes. */
  lemma HandoffStalls(steps: seq<Step>, steps': seq<Step>, f: string, i: nat)
    requires steps <= steps' && f in After(steps).table
    requires 1 <= i && i + 1 < |After(steps).table[f].actions|
    requires After(steps).table[f].actions[i].workerId != After(steps).table[f].actions[i + 1].workerId
    requires |After(steps).table[f].log| == 2 * (i + 1)
    ensures f in After(steps').table && After(steps').table[f] == After(steps).table[f]
  {
    RunContinues(steps, steps', f);
    HandoffBlocks(steps', f, i);
    NoEventNoChange(steps, steps', f);
  }
}
