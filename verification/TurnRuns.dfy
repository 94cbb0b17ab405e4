/** The worker's loop and the step system agree: what `WorkerLoop.ProcessContext` does with a context
    is what the process does in the step system when nobody else takes a step meanwhile. */
module TurnRuns {
  import opened Types
  import opened RowProtocol
  import opened DbServer
  import opened WorkerLoop
  import opened Fleet

  /** A step of a worker that works undisturbed. */
  predicate Works(step: Step, w: string) {
    (step.Receive? || step.Execute? || step.Lose? || step.Deliver? || step.GiveUp?) && step.worker == w
  }

  /** `steps'` continues `steps` by such steps alone. */
  predicate Alone(steps: seq<Step>, steps': seq<Step>, w: string) {
    steps <= steps' && forall k :: |steps| <= k < |steps'| ==> Works(steps'[k], w)
  }

  function Install(s: System, f: string, wf: Workflow, w: string, p: Option<Process>): System {
    SetProc(s.(table := s.table[f := wf]), w, p)
  }

  /** By steps of its own alone, worker `w` brings workflow `f` to `wf` and goes on as `p`. */
  predicate Ran(steps: seq<Step>, steps': seq<Step>, f: string, w: string, wf: Workflow, p: Option<Process>) {
    Alone(steps, steps', w) && f in After(steps).table && After(steps') == Install(After(steps), f, wf, w, p)
  }

  lemma RanOne(steps: seq<Step>, step: Step, f: string, w: string, wf: Workflow, p: Option<Process>)
    requires Works(step, w) && f in After(steps).table && Next(After(steps), step) == Install(After(steps), f, wf, w, p)
    ensures Ran(steps, steps + [step], f, w, wf, p)
  {
    AfterSnoc(steps, step);
  }

  lemma InstallTwice(s: System, f: string, w: string, wf1: Workflow, p1: Option<Process>, wf2: Workflow,
                     p2: Option<Process>)
    ensures Install(Install(s, f, wf1, w, p1), f, wf2, w, p2) == Install(s, f, wf2, w, p2)
  {
    assert Install(Install(s, f, wf1, w, p1), f, wf2, w, p2).procs == Install(s, f, wf2, w, p2).procs;
  }

  lemma RanTwice(steps: seq<Step>, steps1: seq<Step>, steps2: seq<Step>, f: string, w: string,
                 wf1: Workflow, p1: Option<Process>, wf2: Workflow, p2: Option<Process>)
    requires Ran(steps, steps1, f, w, wf1, p1) && Ran(steps1, steps2, f, w, wf2, p2)
    ensures Ran(steps, steps2, f, w, wf2, p2)
  {
    InstallTwice(After(steps), f, w, wf1, p1, wf2, p2);
  }

  /** Process `p` of worker `w` is at point `pc` of a turn at action `i` of workflow `f`, stored as `wf`. */
  predicate At(steps: seq<Step>, f: string, w: string, i: nat, wf: Workflow, p: Process) {
    var s := After(steps);
    && f in s.table && s.table[f] == wf && w in s.procs && s.procs[w] == p
    && !p.pc.Receiving? && p.pc.turn.wf == f && p.pc.turn.index == i < |wf.actions|
  }

  /** One attempt: it gets through or is lost, and is accepted or not. */
  lemma AttemptRun(steps: seq<Step>, f: string, w: string, i: nat, wf: Workflow, p: Process, reaches: bool)
      returns (steps': seq<Step>)
    requires At(steps, f, w, i, wf, p) && !p.pc.Executing? && p.pc.tried < p.retries
    ensures var req := ReportOf(wf.actions, p.pc);
            if reaches && Decide(wf.row, wf.actions, req).Accepted?
            then Ran(steps, steps', f, w, Apply(wf, req), Reported(wf.actions, w, p))
            else Ran(steps, steps', f, w, wf, Some(p.(pc := Tried(p.pc))))
  {
    var s := After(steps);
    assert s.table[f := wf] == s.table;
    var step := if reaches then Deliver(w) else Lose(w);
    if reaches && Decide(wf.row, wf.actions, ReportOf(wf.actions, p.pc)).Accepted? {
      RanOne(steps, step, f, w, Apply(wf, ReportOf(wf.actions, p.pc)), Reported(wf.actions, w, p));
    } else {
      RanOne(steps, step, f, w, wf, Some(p.(pc := Tried(p.pc))));
    }
    steps' := steps + [step];
  }

  /** The workflow and the process after all attempts of a report that the process has left. */
  function AfterAttempts(wf: Workflow, w: string, p: Process, reaches: nat -> bool): (Workflow, Option<Process>)
    requires (p.pc.Announcing? || p.pc.Concluding?) && p.pc.turn.index < |wf.actions|
  {
    var req := ReportOf(wf.actions, p.pc);
    if Decide(wf.row, wf.actions, req).Accepted? && exists r :: p.pc.tried < r <= p.retries && reaches(r)
    then (Apply(wf, req), Reported(wf.actions, w, p))
    else (wf, if p.pc.tried == 0 && p.retries < 1 then Reported(wf.actions, w, p) else None)
  }

  lemma AttemptFails(wf: Workflow, w: string, p: Process, reaches: nat -> bool)
    requires (p.pc.Announcing? || p.pc.Concluding?) && p.pc.turn.index < |wf.actions| && p.pc.tried < p.retries
    requires !(reaches(p.pc.tried + 1) && Decide(wf.row, wf.actions, ReportOf(wf.actions, p.pc)).Accepted?)
    ensures AfterAttempts(wf, w, p.(pc := Tried(p.pc)), reaches) == AfterAttempts(wf, w, p, reaches)
  {
    var p1 := p.(pc := Tried(p.pc));
    assert ReportOf(wf.actions, p1.pc) == ReportOf(wf.actions, p.pc)
           && Reported(wf.actions, w, p1) == Reported(wf.actions, w, p);
  }

  /** The attempts of a report from the next one on. */
  lemma {:induction false} ReportRun(steps: seq<Step>, f: string, w: string, i: nat, wf: Workflow, p: Process,
                                     reaches: nat -> bool) returns (steps': seq<Step>)
    requires At(steps, f, w, i, wf, p) && !p.pc.Executing?
    ensures var r := AfterAttempts(wf, w, p, reaches); Ran(steps, steps', f, w, r.0, r.1)
    decreases p.retries - p.pc.tried
  {
    if p.pc.tried < p.retries {
      var reached := reaches(p.pc.tried + 1);
      steps' := AttemptRun(steps, f, w, i, wf, p, reached);
      if !(reached && Decide(wf.row, wf.actions, ReportOf(wf.actions, p.pc)).Accepted?) {
        var steps1, p1 := steps', p.(pc := Tried(p.pc));
        steps' := ReportRun(steps1, f, w, i, wf, p1, reaches);
        AttemptFails(wf, w, p, reaches);
        var r := AfterAttempts(wf, w, p, reaches);
        RanTwice(steps, steps1, steps', f, w, wf, Some(p1), r.0, r.1);
      }
    } else {
      assert After(steps).table[f := wf] == After(steps).table;
      RanOne(steps, GiveUp(w), f, w, wf, if p.pc.tried == 0 then Reported(wf.actions, w, p) else None);
      steps' := steps + [GiveUp(w)];
    }
  }

  /** The world as seen by a process. */
  predicate Faces(p: Process, world: World) {
    p.retries == world.retries
  }

  /** A whole report of the loop. */
  lemma SentRun(steps: seq<Step>, f: string, w: string, i: nat, wf: Workflow, p: Process, status: State, world: World)
      returns (steps': seq<Step>)
    requires At(steps, f, w, i, wf, p) && !p.pc.Executing? && p.pc.tried == 0 && Faces(p, world)
    requires status == if p.pc.Announcing? then Running else p.pc.status
    ensures var r := Sent(wf, i, status, world);
            Ran(steps, steps', f, w, r.0, if r.1 then Reported(wf.actions, w, p) else None)
  {
    steps' := ReportRun(steps, f, w, i, wf, p, world.reaches(i, status));
  }

  lemma ExecuteRun(steps: seq<Step>, f: string, w: string, i: nat, wf: Workflow, p: Process, run: Execution)
      returns (steps': seq<Step>)
    requires At(steps, f, w, i, wf, p) && p.pc.Executing?
    ensures Ran(steps, steps', f, w, wf, Some(p.(pc := Concluding(p.pc.turn, StatusOf(run), 0))))
  {
    assert After(steps).table[f := wf] == After(steps).table;
    RanOne(steps, Execute(w, run), f, w, wf, Some(p.(pc := Concluding(p.pc.turn, StatusOf(run), 0))));
    steps' := steps + [Execute(w, run)];
  }

  /** The announcement, or nothing for a resumed context. */
  lemma AnnounceRun(steps: seq<Step>, f: string, w: string, i: nat, wf: Workflow, p: Process, world: World)
      returns (steps': seq<Step>)
    requires At(steps, f, w, i, wf, p) && p.pc == Begin(p.pc.turn) && Faces(p, world)
    ensures var r := if p.pc.turn.contextState != Running then Sent(wf, i, Running, world) else (wf, true);
            Ran(steps, steps', f, w, r.0, if r.1 then Some(p.(pc := Executing(p.pc.turn))) else None)
  {
    if p.pc.turn.contextState != Running {
      steps' := SentRun(steps, f, w, i, wf, p, Running, world);
    } else {
      steps' := steps;
      var s := After(steps);
      assert s.table[f := wf] == s.table && s.procs[w := p] == s.procs;
    }
  }

  /** The process after it has reported the result of its action. */
  function Onward(actions: seq<WorkflowAction>, w: string, p: Process, status: State): Option<Process>
    requires !p.pc.Receiving?
  {
    Reported(actions, w, p.(pc := Concluding(p.pc.turn, status, 0)))
  }

  /** Execution and the report of its result. */
  lemma ConcludeRun(steps: seq<Step>, f: string, w: string, i: nat, wf: Workflow, p: Process, world: World)
      returns (steps': seq<Step>)
    requires At(steps, f, w, i, wf, p) && p.pc.Executing? && Faces(p, world)
    ensures var status := StatusOf(world.runs(i));
            var r := Sent(wf, i, status, world);
            Ran(steps, steps', f, w, r.0, if r.1 then Onward(wf.actions, w, p, status) else None)
  {
    var status := StatusOf(world.runs(i));
    var p1 := p.(pc := Concluding(p.pc.turn, status, 0));
    var steps1 := ExecuteRun(steps, f, w, i, wf, p, world.runs(i));
    steps' := SentRun(steps1, f, w, i, wf, p1, status, world);
    var r := Sent(wf, i, status, world);
    RanTwice(steps, steps1, steps', f, w, wf, Some(p1), r.0, if r.1 then Reported(wf.actions, w, p1) else None);
  }

  /** What becomes of a process: it goes on with its stream, or it is gone. */
  function Fate(p: Process, ending: Ending): Option<Process> {
    if ending == GoesOn then Some(p.(pc := Receiving)) else None
  }

  /** All reports on one action. */
  lemma PerformRun(steps: seq<Step>, f: string, w: string, i: nat, wf: Workflow, p: Process, world: World)
      returns (steps': seq<Step>)
    requires At(steps, f, w, i, wf, p) && p.pc == Begin(p.pc.turn) && Faces(p, world)
    ensures var r := Performed(wf, p.pc.turn.contextState, i, world);
            Ran(steps, steps', f, w, r.0, if r.1 then Onward(wf.actions, w, p, StatusOf(world.runs(i))) else None)
  {
    var turn, status := p.pc.turn, StatusOf(world.runs(i));
    var announced := if turn.contextState != Running then Sent(wf, i, Running, world) else (wf, true);
    steps' := AnnounceRun(steps, f, w, i, wf, p, world);
    if announced.1 {
      var steps1, p1 := steps', p.(pc := Executing(turn));
      steps' := ConcludeRun(steps1, f, w, i, announced.0, p1, world);
      var r := Sent(announced.0, i, status, world);
      RanTwice(steps, steps1, steps', f, w, announced.0, Some(p1), r.0,
               if r.1 then Onward(wf.actions, w, p, status) else None);
    }
  }

  /** A turn of the action loop is a run of the process. */
  lemma {:induction false} TurnRun(steps: seq<Step>, f: string, w: string, i: nat, wf: Workflow, p: Process,
                                   world: World)
      returns (steps': seq<Step>)
    requires At(steps, f, w, i, wf, p) && p.pc == Begin(p.pc.turn) && Faces(p, world)
    ensures var r := TurnFrom(wf, w, p.pc.turn.contextState, i, world);
            Ran(steps, steps', f, w, r.0, Fate(p, r.1))
    decreases |wf.actions| - i
  {
    var status := StatusOf(world.runs(i));
    var done := Performed(wf, p.pc.turn.contextState, i, world);
    steps' := PerformRun(steps, f, w, i, wf, p, world);
    if done.1 && status == Success && i + 1 < |wf.actions| && wf.actions[i + 1].workerId == w {
      var steps1, p1 := steps', p.(pc := Begin(p.pc.turn.(index := i + 1)));
      steps' := TurnRun(steps1, f, w, i + 1, done.0, p1, world);
      var r := TurnFrom(done.0, w, p.pc.turn.contextState, i + 1, world);
      RanTwice(steps, steps1, steps', f, w, done.0, Some(p1), r.0, Fate(p, r.1));
    }
  }

  lemma ReceiveRun(steps: seq<Step>, w: string, p: Process, o: Offer, wf: Workflow) returns (steps': seq<Step>)
    requires var s := After(steps);
             && w in s.procs && s.procs[w] == p && p.pc.Receiving? && p.stream != [] && o == p.stream[0]
             && o.wf in s.table && s.table[o.wf] == wf
    ensures Ran(steps, steps', o.wf, w, wf, Received(wf.actions, w, p))
  {
    assert After(steps).table[o.wf := wf] == After(steps).table;
    AfterSnoc(steps, Receive(w));
    steps' := steps + [Receive(w)];
  }

  /** Whatever the loop does with the context a process has received, current or not, with any number
      of attempts, any losses and any executions, the process does it by steps of its own alone, and
      ends as the loop does. */
  lemma ContextIsRun(steps: seq<Step>, w: string, p: Process, o: Offer, world: World) returns (steps': seq<Step>)
    requires w in After(steps).procs && After(steps).procs[w] == p && p.pc.Receiving? && Faces(p, world)
    requires p.stream != [] && o == p.stream[0] && o.wf in After(steps).table
    ensures var r := ContextTurn(After(steps).table[o.wf], w, o.row, world);
            Ran(steps, steps', o.wf, w, r.0, Fate(p.(stream := p.stream[1..]), r.1))
  {
    var wf, rest := After(steps).table[o.wf], p.(stream := p.stream[1..]);
    steps' := ReceiveRun(steps, w, p, o, wf);
    var turn := SelectTurn(o.row, wf.actions, w);
    if turn.Take? {
      var steps1, p1 := steps', rest.(pc := Begin(Turn(o.wf, o.row.state, turn.index)));
      steps' := TurnRun(steps1, o.wf, w, turn.index, wf, p1, world);
      var r := TurnFrom(wf, w, o.row.state, turn.index, world);
      RanTwice(steps, steps1, steps', o.wf, w, wf, Some(p1), r.0, Fate(rest, r.1));
    }
  }
}
