/** The converse of `TurnRuns`: whatever a process does with a context it receives, when nobody else
    takes a step meanwhile, is what the worker's loop does in some world. */
module TurnWorlds {
  import opened Types
  import opened RowProtocol
  import opened DbServer
  import opened WorkerLoop
  import opened Fleet
  import opened TurnRuns

  /** The workflow and the process when the process is back at its stream, or gone. */
  function Rest(wf: Workflow, w: string, p: Process, world: World): (Workflow, Option<Process>)
    requires !p.pc.Receiving? ==> p.pc.turn.index < |wf.actions|
    decreases if p.pc.Receiving? then 0 else |wf.actions| - p.pc.turn.index,
              if p.pc.Announcing? then 2 else if p.pc.Executing? then 1 else 0
  {
    match p.pc
    case Receiving => (wf, Some(p))
    case Announcing(turn, _) =>
      var r := AfterAttempts(wf, w, p, world.reaches(turn.index, Running));
      if r.1.None? then r else Rest(r.0, w, r.1.value, world)
    case Executing(turn) => Rest(wf, w, p.(pc := Concluding(turn, StatusOf(world.runs(turn.index)), 0)), world)
    case Concluding(turn, status, _) =>
      var r := AfterAttempts(wf, w, p, world.reaches(turn.index, status));
      if r.1.None? then r else Rest(r.0, w, r.1.value, world)
  }

  // ---------------------------------------------------------------- the rest of a turn is a turn of the loop

  lemma AttemptsAreSent(wf: Workflow, w: string, p: Process, status: State, world: World)
    requires !p.pc.Receiving? && !p.pc.Executing? && p.pc.tried == 0 && Faces(p, world)
             && p.pc.turn.index < |wf.actions|
    requires status == if p.pc.Announcing? then Running else p.pc.status
    ensures var r := Sent(wf, p.pc.turn.index, status, world);
            AfterAttempts(wf, w, p, world.reaches(p.pc.turn.index, status)) ==
            (r.0, if r.1 then Reported(wf.actions, w, p) else None)
  {
  }

  /** The rest from an execution on. */
  lemma RestFromExecution(wf: Workflow, w: string, p: Process, world: World)
    requires p.pc.Executing? && Faces(p, world) && p.pc.turn.index < |wf.actions|
    ensures var status := StatusOf(world.runs(p.pc.turn.index));
            var r := Sent(wf, p.pc.turn.index, status, world);
            var p' := Onward(wf.actions, w, p, status);
            Rest(wf, w, p, world) == if r.1 && p'.Some? then Rest(r.0, w, p'.value, world) else (r.0, None)
  {
    var status := StatusOf(world.runs(p.pc.turn.index));
    var p1 := p.(pc := Concluding(p.pc.turn, status, 0));
    AttemptsAreSent(wf, w, p1, status, world);
    assert Rest(wf, w, p, world) == Rest(wf, w, p1, world);
  }

  /** The rest from the beginning of an action on. */
  lemma RestOfAction(wf: Workflow, w: string, p: Process, world: World)
    requires !p.pc.Receiving? && p.pc == Begin(p.pc.turn) && Faces(p, world) && p.pc.turn.index < |wf.actions|
    ensures var r := Performed(wf, p.pc.turn.contextState, p.pc.turn.index, world);
            var p' := Onward(wf.actions, w, p, StatusOf(world.runs(p.pc.turn.index)));
            Rest(wf, w, p, world) == if r.1 && p'.Some? then Rest(r.0, w, p'.value, world) else (r.0, None)
  {
    var turn, i := p.pc.turn, p.pc.turn.index;
    if turn.contextState != Running {
      AttemptsAreSent(wf, w, p, Running, world);
      var announced := Sent(wf, i, Running, world);
      if announced.1 {
        RestFromExecution(announced.0, w, p.(pc := Executing(turn)), world);
      }
    } else {
      RestFromExecution(wf, w, p, world);
    }
  }

  lemma {:induction false} RestIsTurn(wf: Workflow, w: string, p: Process, world: World)
    requires !p.pc.Receiving? && p.pc == Begin(p.pc.turn) && Faces(p, world) && p.pc.turn.index < |wf.actions|
    ensures var r := TurnFrom(wf, w, p.pc.turn.contextState, p.pc.turn.index, world);
            Rest(wf, w, p, world) == (r.0, Fate(p, r.1))
    decreases |wf.actions| - p.pc.turn.index
  {
    var turn, i := p.pc.turn, p.pc.turn.index;
    RestOfAction(wf, w, p, world);
    var done := Performed(wf, turn.contextState, i, world);
    var status := StatusOf(world.runs(i));
    if done.1 && status == Success && i + 1 < |wf.actions| && wf.actions[i + 1].workerId == w {
      RestIsTurn(done.0, w, p.(pc := Begin(turn.(index := i + 1))), world);
    }
  }

  // ---------------------------------------------------------------- what the rest depends on

  /** The two worlds agree on everything a process at this point can still ask. */
  ghost predicate Agree(pc: Pc, u: World, v: World) {
    pc.Receiving? ||
    (var i := pc.turn.index;
     && (forall j, status, r :: j > i ==> (u.reaches(j, status)(r) <==> v.reaches(j, status)(r)))
     && (forall j :: j > i ==> u.runs(j) == v.runs(j))
     && match pc
        case Announcing(_, tried) =>
          && (forall r :: r > tried ==> (u.reaches(i, Running)(r) <==> v.reaches(i, Running)(r)))
          && (forall status, r :: status != Running ==> (u.reaches(i, status)(r) <==> v.reaches(i, status)(r)))
          && u.runs(i) == v.runs(i)
        case Executing(_) =>
          && (forall status, r :: status != Running ==> (u.reaches(i, status)(r) <==> v.reaches(i, status)(r)))
          && u.runs(i) == v.runs(i)
        case Concluding(_, status, tried) =>
          forall r :: r > tried ==> (u.reaches(i, status)(r) <==> v.reaches(i, status)(r)))
  }

  lemma {:induction false} RestFrame(wf: Workflow, w: string, p: Process, u: World, v: World)
    requires (!p.pc.Receiving? ==> p.pc.turn.index < |wf.actions|) && Agree(p.pc, u, v)
    ensures Rest(wf, w, p, u) == Rest(wf, w, p, v)
    decreases if p.pc.Receiving? then 0 else |wf.actions| - p.pc.turn.index,
              if p.pc.Announcing? then 2 else if p.pc.Executing? then 1 else 0
  {
    match p.pc
    case Receiving =>
    case Announcing(turn, _) =>
      var r := AfterAttempts(wf, w, p, u.reaches(turn.index, Running));
      assert r == AfterAttempts(wf, w, p, v.reaches(turn.index, Running));
      if r.1.Some? {
        RestFrame(r.0, w, r.1.value, u, v);
      }
    case Executing(turn) =>
      RestFrame(wf, w, p.(pc := Concluding(turn, StatusOf(u.runs(turn.index)), 0)), u, v);
    case Concluding(turn, status, _) =>
      var r := AfterAttempts(wf, w, p, u.reaches(turn.index, status));
      assert r == AfterAttempts(wf, w, p, v.reaches(turn.index, status));
      if r.1.Some? {
        RestFrame(r.0, w, r.1.value, u, v);
      }
  }

  // ---------------------------------------------------------------- the world before a step

  /** The same world, except that attempt `k` of this report does or does not get through. */
  function Told(world: World, i: nat, status: State, k: nat, through: bool): World {
    world.(reaches := (j, s) =>
      (r: nat) => if j == i && s == status && r == k then through else world.reaches(j, s)(r))
  }

  /** The same world, except for the execution of action `i`. */
  function Yielded(world: World, i: nat, run: Execution): World {
    world.(runs := (j: nat) => if j == i then run else world.runs(j))
  }

  /** A step of a process inside its turn. */
  predicate InTurn(step: Step, w: string) {
    (step.Execute? || step.Lose? || step.Deliver? || step.GiveUp?) && step.worker == w
  }

  predicate CanStep(p: Process, step: Step) {
    match step
    case Execute(_, _) => p.pc.Executing?
    case Lose(_) => (p.pc.Announcing? || p.pc.Concluding?) && p.pc.tried < p.retries
    case Deliver(_) => (p.pc.Announcing? || p.pc.Concluding?) && p.pc.tried < p.retries
    case GiveUp(_) => (p.pc.Announcing? || p.pc.Concluding?) && p.pc.tried >= p.retries
    case _ => false
  }

  /** What it does to the workflow and the process. */
  function Stepped(wf: Workflow, w: string, p: Process, step: Step): (Workflow, Option<Process>)
    requires CanStep(p, step) && p.pc.turn.index < |wf.actions|
  {
    match step
    case Execute(_, run) => (wf, Some(p.(pc := Concluding(p.pc.turn, StatusOf(run), 0))))
    case Lose(_) => (wf, Some(p.(pc := Tried(p.pc))))
    case Deliver(_) =>
      var req := ReportOf(wf.actions, p.pc);
      if Decide(wf.row, wf.actions, req).Accepted? then (Apply(wf, req), Reported(wf.actions, w, p))
      else (wf, Some(p.(pc := Tried(p.pc))))
    case GiveUp(_) => (wf, if p.pc.tried == 0 then Reported(wf.actions, w, p) else None)
  }

  /** The rest after a step, in world `v`. */
  function RestAfter(wf: Workflow, w: string, p: Process, step: Step, v: World): (Workflow, Option<Process>)
    requires CanStep(p, step) && p.pc.turn.index < |wf.actions|
  {
    var r := Stepped(wf, w, p, step);
    if r.1.None? then r else Rest(r.0, w, r.1.value, v)
  }

  lemma ExecuteWorld(wf: Workflow, w: string, p: Process, step: Step, v: World) returns (u: World)
    requires step.Execute? && CanStep(p, step) && p.pc.turn.index < |wf.actions|
    ensures u.retries == v.retries && Rest(wf, w, p, u) == RestAfter(wf, w, p, step, v)
  {
    u := Yielded(v, p.pc.turn.index, step.run);
    RestFrame(wf, w, p.(pc := Concluding(p.pc.turn, StatusOf(step.run), 0)), u, v);
  }

  /** The status a sending process reports. */
  function StatusSent(p: Process): State
    requires p.pc.Announcing? || p.pc.Concluding?
  {
    if p.pc.Announcing? then Running else p.pc.status
  }

  lemma LoseWorld(wf: Workflow, w: string, p: Process, step: Step, v: World) returns (u: World)
    requires step.Lose? && CanStep(p, step) && p.pc.turn.index < |wf.actions|
    ensures u.retries == v.retries && Rest(wf, w, p, u) == RestAfter(wf, w, p, step, v)
  {
    var i, status := p.pc.turn.index, StatusSent(p);
    u := Told(v, i, status, p.pc.tried + 1, false);
    AttemptFails(wf, w, p, u.reaches(i, status));
    RestFrame(wf, w, p.(pc := Tried(p.pc)), u, v);
  }

  lemma RefusedWorld(wf: Workflow, w: string, p: Process, step: Step, v: World)
    requires step.Deliver? && CanStep(p, step) && p.pc.turn.index < |wf.actions|
    requires !Decide(wf.row, wf.actions, ReportOf(wf.actions, p.pc)).Accepted?
    ensures Rest(wf, w, p, v) == RestAfter(wf, w, p, step, v)
  {
    AttemptFails(wf, w, p, v.reaches(p.pc.turn.index, StatusSent(p)));
  }

  lemma AcceptedWorld(wf: Workflow, w: string, p: Process, step: Step, v: World) returns (u: World)
    requires step.Deliver? && CanStep(p, step) && p.pc.turn.index < |wf.actions|
    requires Decide(wf.row, wf.actions, ReportOf(wf.actions, p.pc)).Accepted?
    ensures u.retries == v.retries && Rest(wf, w, p, u) == RestAfter(wf, w, p, step, v)
  {
    var i, status, k := p.pc.turn.index, StatusSent(p), p.pc.tried + 1;
    u := Told(v, i, status, k, true);
    var reaches := u.reaches(i, status);
    assert reaches(k);
    var p' := Reported(wf.actions, w, p);
    if p'.Some? {
      RestFrame(Apply(wf, ReportOf(wf.actions, p.pc)), w, p'.value, u, v);
    }
  }

  /** Every step inside a turn is one of some world. */
  lemma StepWorld(wf: Workflow, w: string, p: Process, step: Step, v: World) returns (u: World)
    requires CanStep(p, step) && p.pc.turn.index < |wf.actions|
    ensures u.retries == v.retries && Rest(wf, w, p, u) == RestAfter(wf, w, p, step, v)
  {
    match step
    case Execute(_, _) => u := ExecuteWorld(wf, w, p, step, v);
    case Lose(_) => u := LoseWorld(wf, w, p, step, v);
    case Deliver(_) =>
      if Decide(wf.row, wf.actions, ReportOf(wf.actions, p.pc)).Accepted? {
        u := AcceptedWorld(wf, w, p, step, v);
      } else {
        RefusedWorld(wf, w, p, step, v);
        u := v;
      }
    case GiveUp(_) => u := v;
  }

  // ---------------------------------------------------------------- runs inside a turn

  /** `steps'` continues `steps` by steps of the process inside its turn. */
  predicate Within(steps: seq<Step>, steps': seq<Step>, w: string) {
    steps <= steps' && forall k :: |steps| <= k < |steps'| ==> InTurn(steps'[k], w)
  }

  /** The process is back at its stream, or gone. */
  predicate Ended(s: System, w: string) {
    w in s.procs ==> s.procs[w].pc.Receiving?
  }

  lemma {:induction false} NothingMore(steps: seq<Step>, steps': seq<Step>, w: string)
    requires Within(steps, steps', w) && Ended(After(steps), w)
    ensures After(steps') == After(steps)
    decreases |steps'|
  {
    if steps != steps' {
      NothingMore(steps, steps'[..|steps'| - 1], w);
    }
  }

  /** A step of the process changes its workflow and itself only. */
  lemma StepInstalls(s: System, f: string, w: string, wf: Workflow, p: Process, step: Step)
    requires f in s.table && s.table[f] == wf && w in s.procs && s.procs[w] == p && InTurn(step, w)
    requires !p.pc.Receiving? && p.pc.turn.wf == f && p.pc.turn.index < |wf.actions|
    ensures if CanStep(p, step) then
              var r := Stepped(wf, w, p, step); Next(s, step) == Install(s, f, r.0, w, r.1)
            else Next(s, step) == s
  {
    assert s.table[f := wf] == s.table;
  }

  /** Some world in which a process makes this number of attempts. */
  function SomeWorld(retries: int): World {
    World(retries, (i, status) => r => false, i => Execution(Failed, true))
  }

  lemma {:induction false} RunHasWorld(steps: seq<Step>, steps': seq<Step>, f: string, w: string, wf: Workflow,
                                       p: Process)
      returns (world: World)
    requires Within(steps, steps', w) && Ended(After(steps'), w)
    requires !p.pc.Receiving? && At(steps, f, w, p.pc.turn.index, wf, p)
    ensures Faces(p, world)
    ensures var r := Rest(wf, w, p, world); After(steps') == Install(After(steps), f, r.0, w, r.1)
    decreases |steps'| - |steps|
  {
    assert steps != steps';
    var step := steps'[|steps|];
    var steps1 := steps + [step];
    assert steps1 == steps'[..|steps| + 1] && Within(steps1, steps', w) && InTurn(step, w);
    AfterSnoc(steps, step);
    StepInstalls(After(steps), f, w, wf, p, step);
    if !CanStep(p, step) {
      world := RunHasWorld(steps1, steps', f, w, wf, p);
    } else {
      var r := Stepped(wf, w, p, step);
      if r.1.Some? && !r.1.value.pc.Receiving? {
        world := RunHasWorld(steps1, steps', f, w, r.0, r.1.value);
      } else {
        NothingMore(steps1, steps', w);
        world := SomeWorld(p.retries);
      }
      var end := RestAfter(wf, w, p, step, world);
      InstallTwice(After(steps), f, w, r.0, r.1, end.0, end.1);
      world := StepWorld(wf, w, p, step, world);
    }
  }

  /** Whatever a process does from the receipt of a context until it is back at its stream or gone, with
      no step of anybody else between, is what the loop does with that context in some world. */
  lemma ContextHasWorld(steps: seq<Step>, steps': seq<Step>, w: string, p: Process, o: Offer) returns (world: World)
    requires w in After(steps).procs && After(steps).procs[w] == p && p.pc.Receiving?
    requires p.stream != [] && o == p.stream[0] && o.wf in After(steps).table
    requires Within(steps + [Receive(w)], steps', w) && Ended(After(steps'), w)
    ensures Faces(p, world)
    ensures var r := ContextTurn(After(steps).table[o.wf], w, o.row, world);
            After(steps') == Install(After(steps), o.wf, r.0, w, Fate(p.(stream := p.stream[1..]), r.1))
  {
    var s, wf, rest := After(steps), After(steps).table[o.wf], p.(stream := p.stream[1..]);
    var steps1 := steps + [Receive(w)];
    AfterSnoc(steps, Receive(w));
    var p1 := Received(wf.actions, w, p);
    assert s.table[o.wf := wf] == s.table;
    assert After(steps1) == Install(s, o.wf, wf, w, p1);
    var turn := SelectTurn(o.row, wf.actions, w);
    if turn.Take? {
      world := RunHasWorld(steps1, steps', o.wf, w, wf, p1.value);
      RestIsTurn(wf, w, p1.value, world);
      var r := TurnFrom(wf, w, o.row.state, turn.index, world);
      InstallTwice(s, o.wf, w, wf, p1, r.0, Fate(rest, r.1));
    } else {
      NothingMore(steps1, steps', w);
      world := SomeWorld(p.retries);
    }
  }
}
