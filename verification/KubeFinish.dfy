/** From which states the Kubernetes-backed system can still bring a workflow to SUCCESS. */
module KubeFinish {
  import opened Nested
  import opened Types
  import opened RowProtocol
  import opened DbServer
  import opened Discipline
  import opened WorkerLoop
  import opened WorkerIndex
  import opened KubeStatus
  import KubeServer
  import Controller
  import Runs = KubeRuns
  import F = Fleet
  import opened KubeFleet
  import KubeLogs

  // ---------------------------------------------------------------- who can still get to a workflow

  /** The number of actions that can be reported on. */
  function Limit(o: Object): nat {
    FirstBlock(Lens(o.status.tasks))
  }

  /** The next report of the process can get through without failing the workflow. */
  predicate CanReport(p: F.Process) {
    match p.pc
    case Receiving => false
    case Announcing(_, tried) => tried < p.retries
    case Executing(_) => p.retries >= 1
    case Concluding(_, status, tried) => status == Success && tried < p.retries
  }

  /** A worker at action `i` can work off its turn: all reports it will send are about the first task
      that has actions. */
  predicate Passable(o: Object, worker: string, i: nat) {
    i < Limit(o) <= |Served(o.status.tasks)|
    && (Limit(o) == |Served(o.status.tasks)| || Served(o.status.tasks)[Limit(o)].workerId != worker)
  }

  /** The process is not in a turn, or can work it off. */
  predicate Frees(table: map<string, Object>, worker: string, p: F.Process) {
    p.pc.Receiving? || (CanReport(p) && p.pc.turn.wf in table && Passable(table[p.pc.turn.wf], worker, p.pc.turn.index))
  }

  function Selects(table: map<string, Object>, worker: string, o: Offer): Selection
    requires o.wf in table
  {
    SelectTurn(o.row, Served(table[o.wf].status.tasks), worker)
  }

  /** The process can work off this context. */
  predicate OfferFrees(table: map<string, Object>, worker: string, o: Offer) {
    && o.wf in table
    && match Selects(table, worker, o)
       case NotMine => true
       case Take(i) => Passable(table[o.wf], worker, i)
       case NoSuchAction => false
  }

  /** The context of workflow `f` waits at position `pos` of the stream, and the process can get there. */
  predicate Waits(table: map<string, Object>, f: string, worker: string, p: F.Process, pos: nat) {
    && pos < |p.stream| && p.stream[pos].wf == f && f in table && Selects(table, worker, p.stream[pos]).Take?
    && Frees(table, worker, p) && forall j :: 0 <= j < pos ==> OfferFrees(table, worker, p.stream[j])
  }

  /** The process can still report on workflow `f`: it is on its turn, or can get to it. */
  ghost predicate Coming(table: map<string, Object>, f: string, worker: string, p: F.Process) {
    && p.retries >= 1
    && ((!p.pc.Receiving? && p.pc.turn.wf == f && CanReport(p)) || exists pos :: Waits(table, f, worker, p, pos))
  }

  ghost predicate SomeoneComes(table: map<string, Object>, procs: map<string, F.Process>, f: string) {
    exists w :: w in procs && Coming(table, f, w, procs[w])
  }

  // ---------------------------------------------------------------- lost workflows

  /** Workflow `f` has failed, or the controller has timed it out and no process can get to it. */
  ghost predicate Lost(s: System, f: string) {
    && f in s.table && s.table[f].status.state.Some?
    && (Closed(s.table[f].log) || (s.table[f].status.state == Some(Timeout) && !SomeoneComes(s.table, s.procs, f)))
  }

  /** Objects that exist keep their shape. */
  predicate ShapesKept(table: map<string, Object>, table': map<string, Object>) {
    forall g :: g in table && table[g].status.state.Some? ==> g in table' && SameShape(table[g], table'[g])
  }

  /** Everything the process refers to exists. */
  predicate Known(table: map<string, Object>, p: F.Process) {
    && (forall i :: 0 <= i < |p.stream| ==> p.stream[i].wf in table && table[p.stream[i].wf].status.state.Some?)
    && (!p.pc.Receiving? ==> p.pc.turn.wf in table && table[p.pc.turn.wf].status.state.Some?)
  }

  lemma ProcessKnows(table: map<string, Object>, w: string, p: F.Process)
    requires TableInv(table) && ProcessInv(table, w, p)
    ensures Known(table, p)
  {
    forall i | 0 <= i < |p.stream|
      ensures p.stream[i].wf in table && table[p.stream[i].wf].status.state.Some?
    {
      assert OfferInv(table, w, p.stream[i]);
    }
    if !p.pc.Receiving? {
      assert ObjectInv(table[p.pc.turn.wf]);
    }
  }

  predicate AllKnown(table: map<string, Object>, procs: map<string, F.Process>) {
    forall w :: w in procs && procs[w].retries >= 1 ==> Known(table, procs[w])
  }

  lemma InvKnows(s: System)
    requires Inv(s)
    ensures AllKnown(s.table, s.procs)
  {
    forall w | w in s.procs && s.procs[w].retries >= 1
      ensures Known(s.table, s.procs[w])
    {
      ProcessKnows(s.table, w, s.procs[w]);
    }
  }

  /** Whether a process comes depends on the shapes only. */
  lemma ComingFrame(table: map<string, Object>, table': map<string, Object>, f: string, w: string, p: F.Process)
    requires ShapesKept(table, table') && Known(table, p) && Coming(table', f, w, p)
    ensures Coming(table, f, w, p)
  {
    if exists pos :: Waits(table', f, w, p, pos) {
      var pos: nat :| Waits(table', f, w, p, pos);
      assert forall j :: 0 <= j <= pos ==> SameShape(table[p.stream[j].wf], table'[p.stream[j].wf]);
      assert Waits(table, f, w, p, pos);
    }
  }

  lemma ShapesKeepNobody(table: map<string, Object>, table': map<string, Object>, procs: map<string, F.Process>,
                         f: string)
    requires AllKnown(table, procs) && ShapesKept(table, table') && !SomeoneComes(table, procs, f)
    ensures !SomeoneComes(table', procs, f)
  {
    forall w | w in procs
      ensures !Coming(table', f, w, procs[w])
    {
      if Coming(table', f, w, procs[w]) {
        ComingFrame(table, table', f, w, procs[w]);
      }
    }
  }

  lemma SeatKeepsNobody(table: map<string, Object>, procs: map<string, F.Process>, f: string, worker: string,
                        p: Option<F.Process>)
    requires !SomeoneComes(table, procs, f) && (p.Some? ==> !Coming(table, f, worker, p.value))
    ensures !SomeoneComes(table, Seat(procs, worker, p), f)
  {
    var procs' := Seat(procs, worker, p);
    forall w | w in procs'
      ensures !Coming(table, f, w, procs'[w])
    {
      if w != worker {
        assert w in procs && procs'[w] == procs[w];
      }
    }
  }

  /** A timed-out workflow is on no new stream. */
  lemma PolledDoesNotCome(table: map<string, Object>, f: string, w: string, p: F.Process)
    requires f in table && table[f].status.state == Some(Timeout) && p.pc.Receiving?
             && KubeFleet.IsStream(table, w, p.stream)
    ensures !Coming(table, f, w, p)
  {
    forall pos | 0 <= pos < |p.stream|
      ensures p.stream[pos].wf != f
    {
      assert KubeFleet.Offered(table, w, p.stream[pos]);
    }
  }

  /** A process that comes after it has received a context came before. */
  lemma ReceivedComes(table: map<string, Object>, f: string, w: string, p: F.Process, p': F.Process)
    requires ProcessInv(table, w, p) && p.retries >= 1 && p.pc.Receiving? && p.stream != [] && p.stream[0].wf in table
    requires F.Received(Served(table[p.stream[0].wf].status.tasks), w, p) == Some(p') && Coming(table, f, w, p')
    ensures Coming(table, f, w, p)
  {
    var o := p.stream[0];
    assert p'.stream == p.stream[1..];
    if exists pos :: Waits(table, f, w, p', pos) {
      var pos: nat :| Waits(table, f, w, p', pos);
      assert OfferFrees(table, w, o);
      forall j | 0 <= j < pos + 1
        ensures OfferFrees(table, w, p.stream[j])
      {
        if j > 0 {
          assert p'.stream[j - 1] == p.stream[j];
        }
      }
      assert Waits(table, f, w, p, pos + 1);
    } else {
      assert Waits(table, f, w, p, 0);
    }
  }

  /** The same for a process whose point in the turn changes. */
  lemma MovedComes(table: map<string, Object>, f: string, w: string, p: F.Process, p': F.Process)
    requires !p.pc.Receiving? && !p'.pc.Receiving? && p' == p.(pc := p'.pc) && p'.pc.turn == p.pc.turn
    requires (CanReport(p') ==> CanReport(p)) && Coming(table, f, w, p')
    ensures Coming(table, f, w, p)
  {
    if exists pos :: Waits(table, f, w, p', pos) {
      var pos: nat :| Waits(table, f, w, p', pos);
      assert Waits(table, f, w, p, pos);
    }
  }

  /** The actions of the first task have one owner. */
  lemma BlockOwner(o: Object, k: nat, k': nat)
    requires k < Limit(o) && k' < Limit(o)
    ensures Limit(o) <= |Served(o.status.tasks)|
    ensures Served(o.status.tasks)[k].workerId == Served(o.status.tasks)[k'].workerId
  {
    FirstBlockCoordinates(Lens(o.status.tasks), k);
    FirstBlockCoordinates(Lens(o.status.tasks), k');
  }

  /** A worker that goes on after action `i` of the first task, or back to its stream, could pass. */
  lemma PassableBefore(o: Object, w: string, i: nat)
    requires i < Limit(o) <= |Served(o.status.tasks)| && Served(o.status.tasks)[i].workerId == w
    requires Passable(o, w, i + 1) || i + 1 == |Served(o.status.tasks)| || Served(o.status.tasks)[i + 1].workerId != w
    ensures Passable(o, w, i)
  {
    if i + 1 < Limit(o) {
      BlockOwner(o, i, i + 1);
    }
  }

  /** A process free to go on after an accepted report was free before. */
  lemma ReportedFrees(table: map<string, Object>, w: string, p: F.Process, p': F.Process)
    requires PcInv(table, w, p.pc) && p.retries >= 1 && (p.pc.Announcing? || p.pc.Concluding?)
    requires p.pc.tried < p.retries && p.pc.turn.index < Limit(table[p.pc.turn.wf])
    requires F.Reported(Served(table[p.pc.turn.wf].status.tasks), w, p) == Some(p') && Frees(table, w, p')
    ensures Frees(table, w, p)
  {
    BlockOwner(table[p.pc.turn.wf], p.pc.turn.index, p.pc.turn.index);
    if p.pc.Concluding? {
      PassableBefore(table[p.pc.turn.wf], w, p.pc.turn.index);
    }
  }

  /** A process that comes after an accepted report on another workflow came before. */
  lemma ReportedComes(table: map<string, Object>, f: string, w: string, p: F.Process, p': F.Process)
    requires PcInv(table, w, p.pc) && p.retries >= 1 && (p.pc.Announcing? || p.pc.Concluding?) && p.pc.turn.wf != f
    requires p.pc.tried < p.retries && p.pc.turn.index < Limit(table[p.pc.turn.wf])
    requires F.Reported(Served(table[p.pc.turn.wf].status.tasks), w, p) == Some(p') && Coming(table, f, w, p')
    ensures Coming(table, f, w, p)
  {
    var pos: nat :| Waits(table, f, w, p', pos);
    ReportedFrees(table, w, p, p');
    assert Waits(table, f, w, p, pos);
  }

  // ---------------------------------------------------------------- every step keeps a workflow lost

  /** The controller has timed the workflow out and no process can get to it. */
  ghost predicate Forsaken(s: System, f: string) {
    && f in s.table && s.table[f].status.state == Some(Timeout) && !Closed(s.table[f].log)
    && !SomeoneComes(s.table, s.procs, f)
  }

  lemma SeatForsaken(s: System, f: string, w: string, p: Option<F.Process>)
    requires Forsaken(s, f) && (p.Some? ==> !Coming(s.table, f, w, p.value))
    ensures Forsaken(SetProc(s, w, p), f)
  {
    SeatKeepsNobody(s.table, s.procs, f, w, p);
  }

  lemma TableForsaken(s: System, f: string, table': map<string, Object>)
    requires AllKnown(s.table, s.procs) && Forsaken(s, f) && ShapesKept(s.table, table') && f in table'
             && table'[f] == s.table[f]
    ensures Forsaken(s.(table := table'), f)
  {
    ShapesKeepNobody(s.table, table', s.procs, f);
  }

  /** A pass keeps the shape of an object that exists. */
  lemma PassShapes(table: map<string, Object>, g: string, now: int, rendered: Option<Template>,
                   validImage: string -> bool)
    requires g in table && ObjectInv(table[g])
    ensures ShapesKept(table, table[g := Runs.Next(table[g], Runs.Pass(now, rendered), validImage)])
  {
    var o := table[g];
    PassCases(o, now, rendered, validImage);
    if o.status.state == Some(Running) {
      var o' := PassKeepsObject(o, now);
    }
  }

  lemma PassForsaken(s: System, f: string, g: string, now: int, rendered: Option<Template>, validImage: string -> bool)
    requires AllKnown(s.table, s.procs) && Forsaken(s, f) && g in s.table && ObjectInv(s.table[g])
    ensures Forsaken(s.(table := s.table[g := Runs.Next(s.table[g], Runs.Pass(now, rendered), validImage)]), f)
  {
    PassCases(s.table[g], now, rendered, validImage);
    PassShapes(s.table, g, now, rendered, validImage);
    TableForsaken(s, f, s.table[g := Runs.Next(s.table[g], Runs.Pass(now, rendered), validImage)]);
  }

  lemma PollForsaken(s: System, f: string, w: string, stream: seq<Offer>)
    requires Forsaken(s, f) && Enabled(s, Poll(w, stream))
    ensures Forsaken(SetProc(s, w, Some(s.procs[w].(stream := stream))), f)
  {
    PolledDoesNotCome(s.table, f, w, s.procs[w].(stream := stream));
    SeatForsaken(s, f, w, Some(s.procs[w].(stream := stream)));
  }

  lemma ReceiveForsaken(s: System, f: string, w: string)
    requires Forsaken(s, f) && Enabled(s, Receive(w))
             && (s.procs[w].retries >= 1 ==> ProcessInv(s.table, w, s.procs[w]))
    ensures Forsaken(SetProc(s, w, F.Received(Served(s.table[s.procs[w].stream[0].wf].status.tasks), w, s.procs[w])), f)
  {
    var p := s.procs[w];
    var p' := F.Received(Served(s.table[p.stream[0].wf].status.tasks), w, p);
    if p'.Some? && Coming(s.table, f, w, p'.value) {
      ReceivedComes(s.table, f, w, p, p'.value);
    }
    SeatForsaken(s, f, w, p');
  }

  lemma MoveForsaken(s: System, f: string, w: string, pc: F.Pc)
    requires Forsaken(s, f) && w in s.procs && !s.procs[w].pc.Receiving? && !pc.Receiving?
             && pc.turn == s.procs[w].pc.turn
    requires CanReport(s.procs[w].(pc := pc)) ==> CanReport(s.procs[w])
    ensures Forsaken(SetProc(s, w, Some(s.procs[w].(pc := pc))), f)
  {
    var p, p' := s.procs[w], s.procs[w].(pc := pc);
    if Coming(s.table, f, w, p') {
      MovedComes(s.table, f, w, p, p');
    }
    SeatForsaken(s, f, w, Some(p'));
  }

  lemma GiveUpForsaken(s: System, f: string, w: string)
    requires Forsaken(s, f) && Enabled(s, GiveUp(w))
    ensures Forsaken(SetProc(s, w, GivenUp(Served(s.table[s.procs[w].pc.turn.wf].status.tasks), w, s.procs[w])), f)
  {
    var p' := GivenUp(Served(s.table[s.procs[w].pc.turn.wf].status.tasks), w, s.procs[w]);
    assert p'.Some? ==> p'.value.retries < 1;
    SeatForsaken(s, f, w, p');
  }

  lemma ReportedComesLater(table: map<string, Object>, table': map<string, Object>, f: string, w: string, p: F.Process,
                           p': F.Process)
    requires ProcessInv(table, w, p) && Known(table, p) && p.retries >= 1 && ShapesKept(table, table')
    requires (p.pc.Announcing? || p.pc.Concluding?) && p.pc.turn.wf != f && p.pc.tried < p.retries
    requires p.pc.turn.index < Limit(table[p.pc.turn.wf])
    requires F.Reported(Served(table[p.pc.turn.wf].status.tasks), w, p) == Some(p') && Coming(table', f, w, p')
    ensures Coming(table, f, w, p)
  {
    assert Known(table, p');
    ComingFrame(table, table', f, w, p');
    ReportedComes(table, f, w, p, p');
  }

  /** An accepted report on another workflow. */
  lemma ReportForsaken(s: System, f: string, w: string, p: F.Process, g: string, o: Object, req: Report, o': Object)
    requires AllKnown(s.table, s.procs) && Forsaken(s, f)
    requires w in s.procs && p == s.procs[w] && p.retries >= 1 && ProcessInv(s.table, w, p)
    requires (p.pc.Announcing? || p.pc.Concluding?) && p.pc.tried < p.retries && p.pc.turn.wf == g != f
    requires g in s.table && o == s.table[g] && p.pc.turn.index < Limit(o) && KubeFleet.Follows(o, req, o')
    ensures Forsaken(SetProc(s.(table := s.table[g := o']), w, F.Reported(Served(o.status.tasks), w, p)), f)
  {
    var p', table' := F.Reported(Served(o.status.tasks), w, p), s.table[g := o'];
    TableForsaken(s, f, table');
    if p'.Some? && Coming(table', f, w, p'.value) {
      ReportedComesLater(s.table, table', f, w, p, p'.value);
    }
    SeatForsaken(s.(table := table'), f, w, p');
  }

  /** A report on the forsaken workflow itself can only fail it. */
  lemma OwnReportCloses(s: System, f: string, w: string, p: F.Process, req: Report)
    requires Forsaken(s, f) && w in s.procs && p == s.procs[w] && p.retries >= 1 && ProcessInv(s.table, w, p)
    requires (p.pc.Announcing? || p.pc.Concluding?) && p.pc.turn.wf == f && p.pc.tried < p.retries
    requires req == F.ReportOf(Served(s.table[f].status.tasks), p.pc)
    ensures Closed(s.table[f].log + [req])
  {
    assert !Coming(s.table, f, w, p);
  }

  /** An accepted report. */
  lemma AcceptedForsaken(s: System, f: string, w: string, p: F.Process, g: string, o: Object, req: Report, now: int)
      returns (o': Object)
    requires AllKnown(s.table, s.procs) && Forsaken(s, f)
    requires w in s.procs && p == s.procs[w] && p.retries >= 1 && ProcessInv(s.table, w, p)
    requires (p.pc.Announcing? || p.pc.Concluding?) && p.pc.tried < p.retries && p.pc.turn.wf == g
    requires g in s.table && o == s.table[g] && ObjectInv(o) && req == F.ReportOf(Served(o.status.tasks), p.pc)
    requires KubeServer.Decide(o.status, req, now).Accepted?
    ensures o' == Runs.System(KubeServer.Decide(o.status, req, now).status, o.log + [req])
    ensures Lost(SetProc(s.(table := s.table[g := o']), w, F.Reported(Served(o.status.tasks), w, p)), f)
  {
    o' := ReportKeepsObject(o, w, p.pc, req, now);
    if g == f {
      OwnReportCloses(s, f, w, p, req);
    } else {
      AcceptedInFirst(o, req, now);
      ReportForsaken(s, f, w, p, g, o, req, o');
    }
  }

  lemma DeliverForsaken(s: System, f: string, w: string, now: int, validImage: string -> bool)
    requires AllKnown(s.table, s.procs) && Forsaken(s, f) && Enabled(s, Deliver(w, now))
    requires ProcessInv(s.table, w, s.procs[w]) && ObjectInv(s.table[s.procs[w].pc.turn.wf])
    ensures Lost(Next(s, Deliver(w, now), validImage), f)
  {
    var p := s.procs[w];
    var g := p.pc.turn.wf;
    var o := s.table[g];
    var req := F.ReportOf(Served(o.status.tasks), p.pc);
    DeliverCases(s, w, now, validImage, p, g, o, req);
    if KubeServer.Decide(o.status, req, now).Accepted? {
      var o' := AcceptedForsaken(s, f, w, p, g, o, req, now);
    } else {
      MoveForsaken(s, f, w, F.Tried(p.pc));
    }
  }

  lemma AcceptedInFirst(o: Object, req: Report, now: int)
    requires ObjectInv(o) && KubeServer.Decide(o.status, req, now).Accepted?
    ensures Done(o.status.tasks) < Limit(o)
  {
    KubeServer.DecideExact(o.status, req, now);
    FirstBlockExact(Lens(o.status.tasks), Done(o.status.tasks));
  }

  /** What a step needs of the invariant. */
  lemma InvGives(s: System, step: Step)
    requires Inv(s) && Enabled(s, step)
    ensures step.Pass? ==> ObjectInv(s.table[step.wf])
    ensures step.Receive? && s.procs[step.worker].retries >= 1 ==>
              ProcessInv(s.table, step.worker, s.procs[step.worker])
    ensures step.Deliver? ==> ProcessInv(s.table, step.worker, s.procs[step.worker])
                              && ObjectInv(s.table[s.procs[step.worker].pc.turn.wf])
  {
  }

  lemma StepForsaken(s: System, step: Step, f: string, validImage: string -> bool)
    requires Enabled(s, step) && Forsaken(s, f) && AllKnown(s.table, s.procs)
    requires step.Pass? ==> ObjectInv(s.table[step.wf])
    requires step.Receive? && s.procs[step.worker].retries >= 1 ==>
               ProcessInv(s.table, step.worker, s.procs[step.worker])
    requires step.Deliver? ==> ProcessInv(s.table, step.worker, s.procs[step.worker])
                               && ObjectInv(s.table[s.procs[step.worker].pc.turn.wf])
    ensures Lost(Next(s, step, validImage), f)
  {
    match step
    case Add(wf) => TableForsaken(s, f, s.table[wf := Runs.Initial()]);
    case Pass(wf, now, rendered) => PassForsaken(s, f, wf, now, rendered, validImage);
    case Start(w, retries) => SeatForsaken(s, f, w, Some(F.Process(retries, [], F.Receiving)));
    case Crash(w) => SeatForsaken(s, f, w, None);
    case Poll(w, stream) => PollForsaken(s, f, w, stream);
    case Receive(w) => ReceiveForsaken(s, f, w);
    case Execute(w, run) => MoveForsaken(s, f, w, F.Concluding(s.procs[w].pc.turn, StatusOf(run), 0));
    case Lose(w) => MoveForsaken(s, f, w, F.Tried(s.procs[w].pc));
    case Deliver(w, now) => DeliverForsaken(s, f, w, now, validImage);
    case GiveUp(w) => GiveUpForsaken(s, f, w);
  }

  /** A failed workflow takes no more reports. */
  lemma StepClosed(s: System, step: Step, f: string, validImage: string -> bool)
    requires f in s.table && s.table[f].status.state.Some? && Closed(s.table[f].log)
    requires Enabled(s, step) && step.Deliver? ==> ProcessInv(s.table, step.worker, s.procs[step.worker])
    ensures f in Next(s, step, validImage).table
    ensures Next(s, step, validImage).table[f].log == s.table[f].log
            && Next(s, step, validImage).table[f].status.state.Some?
  {
    if Enabled(s, step) && step.Pass? && step.wf == f {
      PassCases(s.table[f], step.now, step.rendered, validImage);
    }
  }

  lemma LostStep(s: System, step: Step, f: string, validImage: string -> bool)
    requires Inv(s) && Lost(s, f)
    ensures Lost(Next(s, step, validImage), f)
  {
    if Enabled(s, step) {
      InvGives(s, step);
      InvKnows(s);
      if Closed(s.table[f].log) {
        StepClosed(s, step, f, validImage);
      } else {
        StepForsaken(s, step, f, validImage);
      }
    }
  }

  /** What is lost stays lost, whatever steps follow. */
  lemma {:induction false} LostForGood(steps: seq<Step>, steps': seq<Step>, f: string, validImage: string -> bool)
    requires steps <= steps' && Lost(After(steps, validImage), f)
    ensures Lost(After(steps', validImage), f)
    decreases |steps'|
  {
    if steps != steps' {
      var front, last := steps'[..|steps'| - 1], steps'[|steps'| - 1];
      LostForGood(steps, front, f, validImage);
      RunKeeps(front, validImage);
      LostStep(After(front, validImage), last, f, validImage);
    }
  }

  // ---------------------------------------------------------------- working a turn off

  /** Worker `w` brings object `g` from `s` to `s'` and goes on as `p`. */
  predicate Onto(s: System, s': System, g: string, w: string, p: F.Process) {
    && g in s.table && g in s'.table && SameShape(s.table[g], s'.table[g])
    && s'.table == s.table[g := s'.table[g]] && s'.procs == s.procs[w := p]
  }

  lemma OntoTwice(s: System, s1: System, s2: System, g: string, w: string, p1: F.Process, p2: F.Process)
    requires Onto(s, s1, g, w, p1) && Onto(s1, s2, g, w, p2)
    ensures Onto(s, s2, g, w, p2)
  {
  }

  /** Process `p` of worker `w` is on a turn at object `g`, stored as `o`. */
  predicate Turns(s: System, g: string, w: string, o: Object, p: F.Process) {
    && g in s.table && s.table[g] == o && w in s.procs && s.procs[w] == p
    && p.retries >= 1 && !p.pc.Receiving? && p.pc.turn.wf == g
  }

  lemma TurnFacts(steps: seq<Step>, validImage: string -> bool, g: string, w: string, o: Object, p: F.Process)
    requires Turns(After(steps, validImage), g, w, o, p)
    ensures ObjectInv(o) && OnTurn(o, w, p.pc.turn, !p.pc.Announcing?) && (p.pc.Concluding? ==> IsResult(p.pc.status))
  {
    RunKeeps(steps, validImage);
    assert ProcessInv(After(steps, validImage).table, w, p);
  }

  lemma Accepts(o: Object, w: string, pc: F.Pc, req: Report)
    requires ObjectInv(o) && (pc.Announcing? || pc.Concluding?) && OnTurn(o, w, pc.turn, !pc.Announcing?)
    requires (pc.Concluding? ==> IsResult(pc.status)) && pc.turn.index < Limit(o)
    requires req == F.ReportOf(Served(o.status.tasks), pc)
    ensures KubeServer.Decide(o.status, req, 0).Accepted?
  {
    FirstBlockExact(Lens(o.status.tasks), pc.turn.index);
    KubeServer.DecideExact(o.status, req, 0);
  }

  /** The next report about an action of the first task is recorded. */
  lemma Delivered(steps: seq<Step>, validImage: string -> bool, g: string, w: string, o: Object, p: F.Process)
      returns (steps': seq<Step>, o': Object)
    requires Turns(After(steps, validImage), g, w, o, p) && CanReport(p) && !p.pc.Executing?
             && p.pc.turn.index < Limit(o)
    ensures p.pc.turn.index < |Served(o.status.tasks)|
    ensures steps <= steps' && ObjectInv(o') && KubeFleet.Follows(o, F.ReportOf(Served(o.status.tasks), p.pc), o')
    ensures After(steps', validImage) ==
            SetProc(After(steps, validImage).(table := After(steps, validImage).table[g := o']), w,
                    F.Reported(Served(o.status.tasks), w, p))
  {
    var s := After(steps, validImage);
    TurnFacts(steps, validImage, g, w, o, p);
    var req := F.ReportOf(Served(o.status.tasks), p.pc);
    Accepts(o, w, p.pc, req);
    o' := ReportKeepsObject(o, w, p.pc, req, 0);
    AfterSnoc(steps, Deliver(w, 0), validImage);
    DeliverCases(s, w, 0, validImage, p, g, o, req);
    steps' := steps + [Deliver(w, 0)];
  }

  lemma Executed(steps: seq<Step>, validImage: string -> bool, g: string, w: string, o: Object, p: F.Process)
      returns (steps': seq<Step>)
    requires Turns(After(steps, validImage), g, w, o, p) && p.pc.Executing?
    ensures steps <= steps'
    ensures After(steps', validImage) ==
            SetProc(After(steps, validImage), w, Some(p.(pc := F.Concluding(p.pc.turn, Success, 0))))
  {
    var run := Execution(Success, false);
    AfterSnoc(steps, Execute(w, run), validImage);
    steps' := steps + [Execute(w, run)];
  }

  /** The process after the SUCCESS of its action. */
  function AfterSuccess(o: Object, w: string, p: F.Process): F.Process
    requires !p.pc.Receiving?
  {
    var i := p.pc.turn.index + 1;
    if i < |Served(o.status.tasks)| && Served(o.status.tasks)[i].workerId == w
    then p.(pc := F.Begin(p.pc.turn.(index := i))) else p.(pc := F.Receiving)
  }

  lemma AfterSuccessSame(o: Object, o': Object, w: string, p: F.Process, p': F.Process)
    requires SameShape(o, o') && !p.pc.Receiving? && !p'.pc.Receiving? && p' == p.(pc := p'.pc)
             && p'.pc.turn == p.pc.turn
    ensures AfterSuccess(o', w, p') == AfterSuccess(o, w, p)
  {
  }

  /** If the next action is its own, the process begins it and can report. */
  lemma AfterSuccessBegins(o: Object, w: string, p: F.Process) returns (p': F.Process)
    requires !p.pc.Receiving? && p.retries >= 1 && p.pc.turn.index + 1 < |Served(o.status.tasks)|
    requires Served(o.status.tasks)[p.pc.turn.index + 1].workerId == w
    ensures p' == AfterSuccess(o, w, p) == p.(pc := F.Begin(p.pc.turn.(index := p.pc.turn.index + 1)))
    ensures CanReport(p') && p'.(pc := F.Receiving) == p.(pc := F.Receiving)
  {
    p' := AfterSuccess(o, w, p);
  }

  lemma SeatOnto(s: System, g: string, w: string, p: F.Process)
    requires g in s.table
    ensures Onto(s, SetProc(s, w, Some(p)), g, w, p)
  {
    assert s.table[g := s.table[g]] == s.table;
  }

  /** Worker `w` has got object `g` past action `i` and goes on as `p`. */
  predicate Past(s: System, s': System, g: string, w: string, i: nat, p: F.Process) {
    Onto(s, s', g, w, p) && Done(s'.table[g].status.tasks) == i
  }

  lemma PastTwice(s: System, s1: System, s2: System, g: string, w: string, p1: F.Process, i: nat, p2: F.Process)
    requires Onto(s, s1, g, w, p1) && Past(s1, s2, g, w, i, p2)
    ensures Past(s, s2, g, w, i, p2)
  {
    OntoTwice(s, s1, s2, g, w, p1, p2);
  }

  lemma FinishConcluding(steps: seq<Step>, validImage: string -> bool, s: System, g: string, w: string, o: Object,
                         p: F.Process)
      returns (steps': seq<Step>, s': System)
    requires s == After(steps, validImage) && Turns(s, g, w, o, p) && CanReport(p) && p.pc.turn.index < Limit(o)
    requires p.pc.Concluding?
    ensures steps <= steps' && s' == After(steps', validImage)
            && Past(s, s', g, w, p.pc.turn.index + 1, AfterSuccess(o, w, p))
  {
    TurnFacts(steps, validImage, g, w, o, p);
    var o';
    steps', o' := Delivered(steps, validImage, g, w, o, p);
    s' := After(steps', validImage);
  }

  lemma FinishExecuting(steps: seq<Step>, validImage: string -> bool, s: System, g: string, w: string, o: Object,
                        p: F.Process)
      returns (steps': seq<Step>, s': System)
    requires s == After(steps, validImage) && Turns(s, g, w, o, p) && CanReport(p) && p.pc.turn.index < Limit(o)
    requires p.pc.Executing?
    ensures steps <= steps' && s' == After(steps', validImage)
            && Past(s, s', g, w, p.pc.turn.index + 1, AfterSuccess(o, w, p))
  {
    var steps1 := Executed(steps, validImage, g, w, o, p);
    var p1 := p.(pc := F.Concluding(p.pc.turn, Success, 0));
    var s1 := SetProc(s, w, Some(p1));
    steps', s' := FinishConcluding(steps1, validImage, s1, g, w, o, p1);
    SeatOnto(s, g, w, p1);
    AfterSuccessSame(o, o, w, p, p1);
    PastTwice(s, s1, s', g, w, p1, p.pc.turn.index + 1, AfterSuccess(o, w, p));
  }

  lemma FinishAnnouncing(steps: seq<Step>, validImage: string -> bool, s: System, g: string, w: string, o: Object,
                         p: F.Process)
      returns (steps': seq<Step>, s': System)
    requires s == After(steps, validImage) && Turns(s, g, w, o, p) && CanReport(p) && p.pc.turn.index < Limit(o)
    requires p.pc.Announcing?
    ensures steps <= steps' && s' == After(steps', validImage)
            && Past(s, s', g, w, p.pc.turn.index + 1, AfterSuccess(o, w, p))
  {
    var steps1, o1 := Delivered(steps, validImage, g, w, o, p);
    var p1 := p.(pc := F.Executing(p.pc.turn));
    var s1 := SetProc(s.(table := s.table[g := o1]), w, Some(p1));
    steps', s' := FinishExecuting(steps1, validImage, s1, g, w, o1, p1);
    AfterSuccessSame(o, o1, w, p, p1);
    PastTwice(s, s1, s', g, w, p1, p.pc.turn.index + 1, AfterSuccess(o, w, p));
  }

  /** A process finishes its action with SUCCESS. */
  lemma FinishAction(steps: seq<Step>, validImage: string -> bool, s: System, g: string, w: string, o: Object,
                     p: F.Process)
      returns (steps': seq<Step>, s': System)
    requires s == After(steps, validImage) && Turns(s, g, w, o, p) && CanReport(p) && p.pc.turn.index < Limit(o)
    ensures steps <= steps' && s' == After(steps', validImage)
            && Past(s, s', g, w, p.pc.turn.index + 1, AfterSuccess(o, w, p))
  {
    match p.pc
    case Announcing(_, _) => steps', s' := FinishAnnouncing(steps, validImage, s, g, w, o, p);
    case Executing(_) => steps', s' := FinishExecuting(steps, validImage, s, g, w, o, p);
    case Concluding(_, _, _) => steps', s' := FinishConcluding(steps, validImage, s, g, w, o, p);
  }

  lemma PassableSame(o: Object, o': Object, w: string, i: nat)
    requires SameShape(o, o')
    ensures Limit(o') == Limit(o) && (Passable(o', w, i) <==> Passable(o, w, i))
  {
  }

  /** After an action of the first task that is not its last one, the worker is on the next turn. */
  lemma NextTurn(s: System, s': System, g: string, w: string, o: Object, p: F.Process)
      returns (p': F.Process, o': Object)
    requires Turns(s, g, w, o, p) && p.pc.turn.index + 1 < Limit(o) && Passable(o, w, p.pc.turn.index)
    requires Served(o.status.tasks)[p.pc.turn.index].workerId == w
    requires Past(s, s', g, w, p.pc.turn.index + 1, AfterSuccess(o, w, p))
    ensures p' == AfterSuccess(o, w, p) && Turns(s', g, w, o', p') && CanReport(p') && SameShape(o, o')
    ensures p'.pc.turn.index == p.pc.turn.index + 1 && Passable(o', w, p.pc.turn.index + 1)
    ensures p'.(pc := F.Receiving) == p.(pc := F.Receiving)
  {
    o' := s'.table[g];
    p' := OwnNext(o, w, p);
    PassableSame(o, o', w, p.pc.turn.index + 1);
    assert s'.procs[w] == p';
  }

  lemma OwnNext(o: Object, w: string, p: F.Process) returns (p': F.Process)
    requires !p.pc.Receiving? && p.retries >= 1 && p.pc.turn.index + 1 < Limit(o)
    requires p.pc.turn.index < |Served(o.status.tasks)| && Served(o.status.tasks)[p.pc.turn.index].workerId == w
    ensures p' == AfterSuccess(o, w, p) == p.(pc := F.Begin(p.pc.turn.(index := p.pc.turn.index + 1)))
    ensures CanReport(p') && p'.(pc := F.Receiving) == p.(pc := F.Receiving)
  {
    BlockOwner(o, p.pc.turn.index, p.pc.turn.index + 1);
    p' := AfterSuccessBegins(o, w, p);
  }

  /** A process that can pass works its turn off and goes back to its stream. */
  lemma {:induction false} RunOut(steps: seq<Step>, validImage: string -> bool, s: System, g: string, w: string,
                                  o: Object, p: F.Process)
      returns (steps': seq<Step>, s': System)
    requires s == After(steps, validImage) && Turns(s, g, w, o, p) && CanReport(p) && Passable(o, w, p.pc.turn.index)
    ensures steps <= steps' && s' == After(steps', validImage) && Past(s, s', g, w, Limit(o), p.(pc := F.Receiving))
    decreases Limit(o) - p.pc.turn.index
  {
    TurnFacts(steps, validImage, g, w, o, p);
    steps', s' := FinishAction(steps, validImage, s, g, w, o, p);
    if p.pc.turn.index + 1 < Limit(o) {
      var p1, o1 := NextTurn(s, s', g, w, o, p);
      var steps1, s1 := steps', s';
      steps', s' := RunOut(steps1, validImage, s1, g, w, o1, p1);
      PastTwice(s, s1, s', g, w, p1, Limit(o), p.(pc := F.Receiving));
    }
  }

  // ---------------------------------------------------------------- getting to a workflow

  lemma WaitsFrame(table: map<string, Object>, table': map<string, Object>, f: string, w: string, p: F.Process,
                   pos: nat)
    requires ShapesKept(table, table') && Known(table, p) && Waits(table, f, w, p, pos)
    ensures Waits(table', f, w, p, pos)
  {
    assert forall j :: 0 <= j <= pos ==> SameShape(table[p.stream[j].wf], table'[p.stream[j].wf]);
  }

  lemma OntoShapes(s: System, s': System, g: string, w: string, p: F.Process)
    requires Onto(s, s', g, w, p)
    ensures ShapesKept(s.table, s'.table)
  {
  }

  lemma KnownInRun(steps: seq<Step>, validImage: string -> bool, s: System, w: string, p: F.Process)
    requires s == After(steps, validImage) && w in s.procs && s.procs[w] == p && p.retries >= 1
    ensures Known(s.table, p)
    ensures !p.pc.Receiving? ==> forall i :: 0 <= i < |p.stream| ==> p.stream[i].wf != p.pc.turn.wf
  {
    RunKeeps(steps, validImage);
    ProcessKnows(s.table, w, p);
  }

  /** Working off another turn does not change that the process waits for workflow `f`. */
  lemma FreedWaits(s: System, s': System, f: string, g: string, w: string, p: F.Process, pos: nat)
    requires Known(s.table, p) && Waits(s.table, f, w, p, pos) && g != f && Onto(s, s', g, w, p.(pc := F.Receiving))
    ensures Waits(s'.table, f, w, p.(pc := F.Receiving), pos) && f in s'.table && s'.table[f] == s.table[f]
  {
    var p' := p.(pc := F.Receiving);
    OntoShapes(s, s', g, w, p');
    assert Waits(s.table, f, w, p', pos);
    WaitsFrame(s.table, s'.table, f, w, p', pos);
  }

  /** The process is back at its stream, still on its way to workflow `f`, which has not changed. */
  lemma BackToStream(steps: seq<Step>, validImage: string -> bool, s: System, f: string, w: string, p: F.Process,
                     pos: nat)
      returns (steps': seq<Step>, s': System, p': F.Process)
    requires s == After(steps, validImage) && w in s.procs && s.procs[w] == p && p.retries >= 1
             && Waits(s.table, f, w, p, pos)
    ensures steps <= steps' && s' == After(steps', validImage) && w in s'.procs && s'.procs[w] == p' && p'.retries >= 1
    ensures p'.pc.Receiving? && Waits(s'.table, f, w, p', pos) && f in s.table && s'.table[f] == s.table[f]
  {
    if p.pc.Receiving? {
      steps', s', p' := steps, s, p;
    } else {
      KnownInRun(steps, validImage, s, w, p);
      var g := p.pc.turn.wf;
      steps', s' := RunOut(steps, validImage, s, g, w, s.table[g], p);
      p' := p.(pc := F.Receiving);
      FreedWaits(s, s', f, g, w, p, pos);
    }
  }

  /** It receives the next context. */
  lemma ReceiveNext(steps: seq<Step>, validImage: string -> bool, s: System, w: string, p: F.Process, p': F.Process)
      returns (steps': seq<Step>, s': System)
    requires s == After(steps, validImage) && w in s.procs && s.procs[w] == p && p.pc.Receiving? && p.stream != []
    requires p.stream[0].wf in s.table && F.Received(Served(s.table[p.stream[0].wf].status.tasks), w, p) == Some(p')
    ensures steps <= steps' && s' == After(steps', validImage) && s' == SetProc(s, w, Some(p'))
  {
    AfterSnoc(steps, Receive(w), validImage);
    steps', s' := steps + [Receive(w)], SetProc(s, w, Some(p'));
  }

  /** A process that waits for workflow `f` behind another context still waits after receiving that. */
  lemma StillWaits(table: map<string, Object>, f: string, w: string, p: F.Process, pos: nat) returns (p': F.Process)
    requires Waits(table, f, w, p, pos) && pos > 0 && p.pc.Receiving? && p.retries >= 1
    ensures p.stream[0].wf in table && F.Received(Served(table[p.stream[0].wf].status.tasks), w, p) == Some(p')
    ensures Waits(table, f, w, p', pos - 1) && p'.retries == p.retries
  {
    assert OfferFrees(table, w, p.stream[0]);
    p' := F.Received(Served(table[p.stream[0].wf].status.tasks), w, p).value;
    assert p'.stream == p.stream[1..];
    forall j | 0 <= j < pos - 1
      ensures OfferFrees(table, w, p'.stream[j])
    {
      assert p'.stream[j] == p.stream[j + 1];
    }
  }

  lemma TakesTurn(table: map<string, Object>, f: string, w: string, p: F.Process) returns (p': F.Process)
    requires Waits(table, f, w, p, 0) && p.pc.Receiving? && p.retries >= 1
    ensures p.stream[0].wf == f && f in table && F.Received(Served(table[f].status.tasks), w, p) == Some(p')
    ensures p'.retries >= 1 && !p'.pc.Receiving? && p'.pc.turn.wf == f && CanReport(p')
  {
    p' := F.Received(Served(table[f].status.tasks), w, p).value;
  }

  /** A process that can get to workflow `f` gets there, with the workflow unchanged. */
  lemma {:induction false} GetsThere(steps: seq<Step>, validImage: string -> bool, s: System, f: string, w: string,
                                     p: F.Process, pos: nat)
      returns (steps': seq<Step>, s': System, p': F.Process)
    requires s == After(steps, validImage) && w in s.procs && s.procs[w] == p && p.retries >= 1
             && Waits(s.table, f, w, p, pos)
    ensures steps <= steps' && s' == After(steps', validImage) && f in s.table
    ensures Turns(s', f, w, s.table[f], p') && CanReport(p')
    decreases pos
  {
    var steps1, s1, p1 := BackToStream(steps, validImage, s, f, w, p, pos);
    if pos == 0 {
      p' := TakesTurn(s1.table, f, w, p1);
      steps', s' := ReceiveNext(steps1, validImage, s1, w, p1, p');
    } else {
      var p2 := StillWaits(s1.table, f, w, p1, pos);
      var steps2, s2 := ReceiveNext(steps1, validImage, s1, w, p1, p2);
      steps', s', p' := GetsThere(steps2, validImage, s2, f, w, p2, pos - 1);
    }
  }

  // ---------------------------------------------------------------- theorems

  ghost predicate Alive(s: System, f: string)
    requires f in s.table
  {
    var o := s.table[f];
    && 0 < Total(o.status.tasks) == Limit(o) && !Closed(o.log)
    && (NonTerminal(o.status) || o.status.state == Some(Success) || SomeoneComes(s.table, s.procs, f))
  }

  predicate Succeeded(s: System, f: string) {
    f in s.table && s.table[f].status.state == Some(Success)
  }

  /** Some continuation of the run brings workflow `f` to SUCCESS. */
  ghost predicate CanSucceed(steps: seq<Step>, validImage: string -> bool, f: string) {
    exists steps' :: steps <= steps' && Succeeded(After(steps', validImage), f)
  }

  lemma StoredInv(steps: seq<Step>, validImage: string -> bool, f: string)
    requires f in After(steps, validImage).table
    ensures ObjectInv(After(steps, validImage).table[f])
  {
    RunKeeps(steps, validImage);
  }

  lemma DoneIsSuccess(o: Object)
    requires ObjectInv(o) && o.status.state.Some? && Total(o.status.tasks) > 0
    ensures o.status.state == Some(Success) <==> Done(o.status.tasks) == Total(o.status.tasks)
  {
  }

  /** A process on the turn of a workflow with one working task brings it to SUCCESS. */
  lemma Finishes(steps: seq<Step>, validImage: string -> bool, s: System, f: string, w: string, p: F.Process)
      returns (steps': seq<Step>)
    requires s == After(steps, validImage) && f in s.table && Turns(s, f, w, s.table[f], p) && CanReport(p)
    requires 0 < Total(s.table[f].status.tasks) == Limit(s.table[f])
    ensures steps <= steps' && Succeeded(After(steps', validImage), f)
  {
    var o := s.table[f];
    TurnFacts(steps, validImage, f, w, o, p);
    var s';
    steps', s' := RunOut(steps, validImage, s, f, w, o, p);
    FinishedObject(steps', validImage, s, s', f, w, p.(pc := F.Receiving));
  }

  lemma FinishedObject(steps': seq<Step>, validImage: string -> bool, s: System, s': System, f: string, w: string,
                       p: F.Process)
    requires s' == After(steps', validImage) && f in s.table && Past(s, s', f, w, Limit(s.table[f]), p)
    requires 0 < Total(s.table[f].status.tasks) == Limit(s.table[f]) && s.table[f].status.state.Some?
    ensures Succeeded(s', f)
  {
    StoredInv(steps', validImage, f);
    var o, o' := s.table[f], s'.table[f];
    assert Total(o'.status.tasks) == Total(o.status.tasks);
    if o'.status.state.Some? {
      DoneIsSuccess(o');
    }
  }

  /** The context of a workflow that is PENDING or RUNNING. */
  lemma OfferedNow(o: Object, w: string)
    requires ObjectInv(o) && NonTerminal(o.status) && Done(o.status.tasks) < Total(o.status.tasks)
    requires w == Served(o.status.tasks)[Done(o.status.tasks)].workerId
    ensures Assigned(o.status, w)
    ensures SelectTurn(ContextRow(o.status.tasks), Served(o.status.tasks), w) == Take(Done(o.status.tasks))
  {
    assert At(o.status.tasks, Done(o.status.tasks)).name != "";
  }

  /** A restarted worker brings a workflow that is PENDING or RUNNING to SUCCESS. */
  lemma RestartFinishes(steps: seq<Step>, validImage: string -> bool, f: string, o: Object) returns (steps': seq<Step>)
    requires f in After(steps, validImage).table && o == After(steps, validImage).table[f] && NonTerminal(o.status)
    requires 0 < Total(o.status.tasks) == Limit(o)
    ensures steps <= steps' && Succeeded(After(steps', validImage), f)
  {
    StoredInv(steps, validImage, f);
    DoneIsSuccess(o);
    var k := Done(o.status.tasks);
    var w := Served(o.status.tasks)[k].workerId;
    OfferedNow(o, w);
    var row := ContextRow(o.status.tasks);
    var steps1 := KubeLogs.PickUp(steps, validImage, f, w, o, row, k);
    var p := F.Process(1, [], F.Begin(F.Turn(f, row.state, k)));
    steps' := Finishes(steps1, validImage, After(steps1, validImage), f, w, p);
  }

  lemma ComerFinishes(steps: seq<Step>, validImage: string -> bool, s: System, f: string, w: string, p: F.Process)
      returns (steps': seq<Step>)
    requires s == After(steps, validImage) && f in s.table && w in s.procs && s.procs[w] == p
             && Coming(s.table, f, w, p)
    requires 0 < Total(s.table[f].status.tasks) == Limit(s.table[f])
    ensures steps <= steps' && Succeeded(After(steps', validImage), f)
  {
    if !p.pc.Receiving? && p.pc.turn.wf == f && CanReport(p) {
      steps' := Finishes(steps, validImage, s, f, w, p);
    } else {
      var pos: nat :| Waits(s.table, f, w, p, pos);
      var steps1, s1, p1 := GetsThere(steps, validImage, s, f, w, p, pos);
      steps' := Finishes(steps1, validImage, s1, f, w, p1);
    }
  }

  lemma AliveSucceeds(steps: seq<Step>, validImage: string -> bool, f: string) returns (steps': seq<Step>)
    requires f in After(steps, validImage).table && Alive(After(steps, validImage), f)
    ensures steps <= steps' && Succeeded(After(steps', validImage), f)
  {
    var s := After(steps, validImage);
    if s.table[f].status.state == Some(Success) {
      steps' := steps;
    } else if NonTerminal(s.table[f].status) {
      steps' := RestartFinishes(steps, validImage, f, s.table[f]);
    } else {
      var w :| w in s.procs && Coming(s.table, f, w, s.procs[w]);
      steps' := ComerFinishes(steps, validImage, s, f, w, s.procs[w]);
    }
  }

  lemma DeliverShape(s: System, w: string, now: int, f: string, o: Object, validImage: string -> bool)
      returns (o': Object)
    requires Enabled(s, Deliver(w, now)) && s.procs[w].pc.turn.wf == f && o == s.table[f] && o.status.state.Some?
    requires ProcessInv(s.table, w, s.procs[w]) && ObjectInv(o)
    ensures f in Next(s, Deliver(w, now), validImage).table && o' == Next(s, Deliver(w, now), validImage).table[f]
    ensures SameShape(o, o') && o'.status.state.Some?
  {
    var p := s.procs[w];
    var req := F.ReportOf(Served(o.status.tasks), p.pc);
    DeliverCases(s, w, now, validImage, p, f, o, req);
    if KubeServer.Decide(o.status, req, now).Accepted? {
      o' := ReportKeepsObject(o, w, p.pc, req, now);
    } else {
      o' := o;
    }
  }

  lemma PassShape(o: Object, now: int, rendered: Option<Template>, validImage: string -> bool)
    requires ObjectInv(o) && o.status.state.Some?
    ensures SameShape(o, Runs.Next(o, Runs.Pass(now, rendered), validImage))
    ensures Runs.Next(o, Runs.Pass(now, rendered), validImage).status.state.Some?
  {
    PassCases(o, now, rendered, validImage);
    if o.status.state == Some(Running) {
      var o' := PassKeepsObject(o, now);
    }
  }

  lemma StepShape(s: System, step: Step, f: string, o: Object, validImage: string -> bool)
    requires f in s.table && o == s.table[f] && o.status.state.Some? && Enabled(s, step)
    requires step.Pass? ==> ObjectInv(s.table[step.wf])
    requires step.Deliver? ==> ProcessInv(s.table, step.worker, s.procs[step.worker])
                               && ObjectInv(s.table[s.procs[step.worker].pc.turn.wf])
    ensures f in Next(s, step, validImage).table
    ensures SameShape(o, Next(s, step, validImage).table[f]) && Next(s, step, validImage).table[f].status.state.Some?
  {
    if step.Pass? && step.wf == f {
      PassShape(o, step.now, step.rendered, validImage);
    } else if step.Deliver? && s.procs[step.worker].pc.turn.wf == f {
      var o' := DeliverShape(s, step.worker, step.now, f, o, validImage);
    } else {
      Untouched(s, step, f, validImage);
    }
  }

  lemma Untouched(s: System, step: Step, f: string, validImage: string -> bool)
    requires f in s.table && Enabled(s, step)
    requires !(step.Pass? && step.wf == f) && !(step.Deliver? && s.procs[step.worker].pc.turn.wf == f)
    ensures f in Next(s, step, validImage).table && Next(s, step, validImage).table[f] == s.table[f]
  {
  }

  lemma ShapeStep(s: System, step: Step, f: string, validImage: string -> bool)
    requires Inv(s) && f in s.table && s.table[f].status.state.Some?
    ensures f in Next(s, step, validImage).table
    ensures SameShape(s.table[f], Next(s, step, validImage).table[f])
    ensures Next(s, step, validImage).table[f].status.state.Some?
  {
    if Enabled(s, step) {
      InvGives(s, step);
      StepShape(s, step, f, s.table[f], validImage);
    }
  }

  lemma {:induction false} RunShape(steps: seq<Step>, steps': seq<Step>, f: string, validImage: string -> bool)
    requires steps <= steps' && f in After(steps, validImage).table
             && After(steps, validImage).table[f].status.state.Some?
    ensures f in After(steps', validImage).table
    ensures SameShape(After(steps, validImage).table[f], After(steps', validImage).table[f])
    ensures After(steps', validImage).table[f].status.state.Some?
    decreases |steps'|
  {
    if steps != steps' {
      var front, last := steps'[..|steps'| - 1], steps'[|steps'| - 1];
      RunShape(steps, front, f, validImage);
      RunKeeps(front, validImage);
      ShapeStep(After(front, validImage), last, f, validImage);
    }
  }

  lemma {:induction false} SuccessesWithin(actions: seq<WorkflowAction>, n: nat, log: seq<Report>)
    requires WorkerLog(actions, n, log)
    ensures Successes(log) <= n
  {
    if log != [] {
      SuccessesWithin(actions, n, log[..|log| - 1]);
    }
  }

  lemma SuccessIsWhole(o: Object)
    requires ObjectInv(o) && o.status.state == Some(Success)
    ensures 0 < Total(o.status.tasks) == Limit(o)
  {
    SuccessesWithin(Served(o.status.tasks), Limit(o), o.log);
    FirstBlockExact(Lens(o.status.tasks), 0);
  }

  lemma LostIsNotSuccess(s: System, f: string)
    requires Lost(s, f) && ObjectInv(s.table[f])
    ensures s.table[f].status.state != Some(Success)
  {
  }

  lemma SucceededWasAlive(steps: seq<Step>, steps': seq<Step>, validImage: string -> bool, f: string)
    requires f in After(steps, validImage).table && After(steps, validImage).table[f].status.state.Some?
    requires steps <= steps' && Succeeded(After(steps', validImage), f)
    ensures Alive(After(steps, validImage), f)
  {
    var s, s' := After(steps, validImage), After(steps', validImage);
    RunShape(steps, steps', f, validImage);
    WholeThen(steps', validImage, f, s.table[f], s'.table[f]);
    if Lost(s, f) {
      LostForGood(steps, steps', f, validImage);
      StoredInv(steps', validImage, f);
      LostIsNotSuccess(s', f);
    }
    StoredInv(steps, validImage, f);
    AliveOrLost(s, f, s.table[f]);
  }

  lemma WholeThen(steps': seq<Step>, validImage: string -> bool, f: string, o: Object, o': Object)
    requires f in After(steps', validImage).table && o' == After(steps', validImage).table[f]
    requires SameShape(o, o') && o'.status.state == Some(Success)
    ensures 0 < Total(o.status.tasks) == Limit(o)
  {
    StoredInv(steps', validImage, f);
    SuccessIsWhole(o');
  }

  lemma AliveOrLost(s: System, f: string, o: Object)
    requires f in s.table && o == s.table[f] && ObjectInv(o) && o.status.state.Some?
    requires 0 < Total(o.status.tasks) == Limit(o)
    ensures Alive(s, f) || Lost(s, f)
  {
    var state := o.status.state.value;
    assert state == Pending || state == Running || state == Failed || state == Timeout || state == Success;
  }

  /** From any reachable state, some continuation brings a created workflow to SUCCESS iff exactly its
      first working task has actions, it has not failed, and it is PENDING, RUNNING or SUCCESS already,
      or, timed out by the controller, a process is still on its turn or can get to it. */
  lemma SucceedExactly(steps: seq<Step>, validImage: string -> bool, f: string)
    requires f in After(steps, validImage).table && After(steps, validImage).table[f].status.state.Some?
    ensures CanSucceed(steps, validImage, f) <==> Alive(After(steps, validImage), f)
  {
    if CanSucceed(steps, validImage, f) {
      var steps' :| steps <= steps' && Succeeded(After(steps', validImage), f);
      SucceededWasAlive(steps, steps', validImage, f);
    } else if Alive(After(steps, validImage), f) {
      var steps' := AliveSucceeds(steps, validImage, f);
    }
  }
}
