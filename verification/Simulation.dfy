/** The two backends side by side: the same template, the same reports. */
module Simulation {
  import opened Nested
  import opened Types
  import Validator
  import Row = RowProtocol
  import opened Discipline
  import opened Progress
  import opened KubeStatus
  import opened KubeServer
  import opened Controller
  import Runs = KubeRuns

  /** The status after the reports, the n-th one at instant `clock(n)`, if each is accepted. */
  function KubeReplay(t: Template, reports: seq<Report>, clock: nat -> int): Option<Status> {
    if reports == [] then Some(Created(t))
    else
      match KubeReplay(t, reports[..|reports| - 1], clock)
      case None => None
      case Some(st) =>
        match Decide(st, reports[|reports| - 1], clock(|reports| - 1))
        case Accepted(st') => Some(st')
        case Rejected(_) => None
  }

  // ---------------------------------------------------------------- the relation

  /** The status still carries the template's shape and names. */
  predicate Follows(tasks: seq<Task>, t: Template) {
    && Lens(tasks) == TemplateLens(t.tasks)
    && (forall i :: 0 <= i < |tasks| ==> tasks[i].name == t.tasks[i].name)
    && (forall i, j :: 0 <= i < |tasks| && 0 <= j < |tasks[i].actions| ==>
          tasks[i].actions[j].name == t.tasks[i].actions[j].name)
  }

  /** The row and the status tell the same: workflow state, completed count, total, and the status of
      the action that is not completed. */
  predicate Agree(row: Row.Row, st: Status) {
    && st.state == Some(WorkflowState(row))
    && Done(st.tasks) == Completed(row) && Total(st.tasks) == row.total
    && (row.action != "" && row.state != Success ==>
          Done(st.tasks) < Total(st.tasks) && At(st.tasks, Done(st.tasks)).status == row.state)
    && (row.action == "" || row.state == Success ==>
          Done(st.tasks) < Total(st.tasks) ==> At(st.tasks, Done(st.tasks)).status == Pending)
  }

  lemma CreatedAgrees(t: Template, validImage: string -> bool, actions: seq<WorkflowAction>)
    requires Rendered(t, validImage) && Validator.Flattens(t.tasks, actions)
    ensures Agree(Row.InitialRow(|actions|), Created(t)) && Follows(Created(t).tasks, t) && Runs.Inv(Created(t))
  {
    NewTasksShape(t.tasks);
    Runs.CreateKeeps(t, validImage);
  }

  /** The two backends after the same log. */
  predicate Linked(t: Template, actions: seq<WorkflowAction>, log: seq<Report>, st: Status)
    requires |log| <= 2 * |actions|
  {
    Runs.Inv(st) && Follows(st.tasks, t) && Agree(RowAfter(actions, log), st)
  }

  /** The next report of the discipline over a log: its action, and what the rows before and after
      stand for. */
  lemma NextOfDiscipline(actions: seq<WorkflowAction>, log: seq<Report>, r: Report)
    requires WellNamed(actions) && Disciplined(actions, log) && Open(log) && Disciplined(actions, log + [r])
    ensures var k := |log| / 2;
            var row, row' := RowAfter(actions, log), RowAfter(actions, log + [r]);
            && k < |actions| && Names(r, actions[k])
            && Completed(row) == k && row.total == row'.total == |actions|
            && (log == [] || row.action != "") && (row.state == Success || row.state == Running || log == [])
            && row'.action != "" && row'.state == r.status && row'.index == k
            && r.status != Pending && Completed(row') == k + (if r.status == Success then 1 else 0)
            && (r.status == Success ==> row.state == Running)
  {
    assert DisciplinedEvent(actions, log + [r], |log|);
    if log != [] {
      assert DisciplinedEvent(actions, log, |log| - 1);
    }
  }

  lemma NamesMatch(t: Template, actions: seq<WorkflowAction>, tasks: seq<Task>, k: nat)
    requires Validator.Flattens(t.tasks, actions) && Follows(tasks, t) && k < |actions|
    ensures k < Total(tasks)
    ensures tasks[Coord(tasks, k).0].name == actions[k].taskName && At(tasks, k).name == actions[k].name
  {
  }

  /** Whether the Kubernetes server takes the next report of the discipline. */
  lemma KubeTakesNext(t: Template, actions: seq<WorkflowAction>, log: seq<Report>, r: Report, st: Status, now: int)
    requires Validator.Flattens(t.tasks, actions) && WellNamed(actions)
    requires Disciplined(actions, log) && Open(log) && Disciplined(actions, log + [r])
    requires Linked(t, actions, log, st)
    ensures Decide(st, r, now).Accepted? <==> |log| / 2 < FirstBlock(TemplateLens(t.tasks))
  {
    var k := |log| / 2;
    NextOfDiscipline(actions, log, r);
    NamesMatch(t, actions, st.tasks, k);
    FirstBlockExact(Lens(st.tasks), k);
    DecideExact(st, r, now);
  }

  lemma EffectFollows(st: Status, req: Report, now: int, st': Status, t: Template)
    requires Effect(st, req, now, st') && Follows(st.tasks, t)
    ensures Follows(st'.tasks, t)
  {
  }

  lemma EffectAgrees(row: Row.Row, row': Row.Row, st: Status, req: Report, now: int, st': Status)
    requires Agree(row, st) && Runs.Prefix(st.tasks) && Effect(st, req, now, st') && req.status != Pending
    requires Done(st'.tasks) == Done(st.tasks) + if req.status == Success then 1 else 0
    requires row'.total == row.total && row'.action != "" && row'.state == req.status && row'.index == Done(st.tasks)
    requires req.status == Success ==> row.state == Running
    ensures Agree(row', st')
  {
  }

  /** One accepted report of the discipline keeps the backends linked. */
  lemma StepAgrees(t: Template, actions: seq<WorkflowAction>, log: seq<Report>, r: Report, st: Status, now: int,
                   st': Status)
    requires Validator.Flattens(t.tasks, actions) && WellNamed(actions)
    requires Disciplined(actions, log) && Open(log) && Disciplined(actions, log + [r])
    requires Linked(t, actions, log, st) && Decide(st, r, now) == Accepted(st')
    ensures Linked(t, actions, log + [r], st')
  {
    assert Effect(st, r, now, st') by { DecideExact(st, r, now); }
    assert Runs.Inv(st') by { Runs.ReportKeeps(st, r, now); }
    assert Follows(st'.tasks, t) by { EffectFollows(st, r, now, st', t); }
    assert Agree(RowAfter(actions, log + [r]), st') by {
      NextOfDiscipline(actions, log, r);
      Runs.ReportMoves(st, r, now);
      EffectAgrees(RowAfter(actions, log), RowAfter(actions, log + [r]), st, r, now, st');
    }
  }

  lemma KubeReplayStep(t: Template, front: seq<Report>, last: Report, clock: nat -> int, st: Status)
    requires KubeReplay(t, front, clock) == Some(st)
    ensures var reply := Decide(st, last, clock(|front|));
            KubeReplay(t, front + [last], clock) == if reply.Accepted? then Some(reply.status) else None
  {
    assert (front + [last])[..|front|] == front;
  }

  lemma FollowStep(t: Template, actions: seq<WorkflowAction>, front: seq<Report>, last: Report, clock: nat -> int,
                   before: Status) returns (st: Status)
    requires Validator.Flattens(t.tasks, actions) && WellNamed(actions)
    requires Disciplined(actions, front) && Open(front) && Disciplined(actions, front + [last])
    requires |front| + 1 <= 2 * FirstBlock(TemplateLens(t.tasks))
    requires KubeReplay(t, front, clock) == Some(before) && Linked(t, actions, front, before)
    ensures KubeReplay(t, front + [last], clock) == Some(st) && Linked(t, actions, front + [last], st)
  {
    KubeTakesNext(t, actions, front, last, before, clock(|front|));
    st := Decide(before, last, clock(|front|)).status;
    StepAgrees(t, actions, front, last, before, clock(|front|), st);
    KubeReplayStep(t, front, last, clock, before);
  }

  /** The Kubernetes replay of a disciplined sequence stays linked up to the end of the first task
      with actions. */
  lemma {:induction false} KubeFollows(t: Template, actions: seq<WorkflowAction>, reports: seq<Report>,
                                       clock: nat -> int) returns (st: Status)
    requires Validator.Flattens(t.tasks, actions) && WellNamed(actions) && Linked(t, actions, [], Created(t))
    requires Disciplined(actions, reports) && |reports| <= 2 * FirstBlock(TemplateLens(t.tasks))
    ensures KubeReplay(t, reports, clock) == Some(st) && Linked(t, actions, reports, st)
  {
    if reports == [] {
      st := Created(t);
    } else {
      var front, last := reports[..|reports| - 1], reports[|reports| - 1];
      assert front + [last] == reports;
      DisciplinedPrefix(actions, reports, |reports| - 1);
      st := KubeFollows(t, actions, front, clock);
      st := FollowStep(t, actions, front, last, clock, st);
    }
  }

  /** Up to the end of the first task with actions, both backends accept every disciplined report
      sequence, report by report, and agree afterwards. */
  lemma BackendsAgree(t: Template, validImage: string -> bool, actions: seq<WorkflowAction>,
                      reports: seq<Report>, clock: nat -> int)
    requires Rendered(t, validImage) && Validator.Flattens(t.tasks, actions) && Disciplined(actions, reports)
    requires |reports| <= 2 * FirstBlock(TemplateLens(t.tasks))
    ensures Row.Replay(actions, reports).Some? && KubeReplay(t, reports, clock).Some?
    ensures Agree(Row.Replay(actions, reports).value, KubeReplay(t, reports, clock).value)
  {
    Validator.ValidIsWellNamed(t, validImage, actions);
    RowAfterIsReplay(actions, reports);
    CreatedAgrees(t, validImage, actions);
    var st := KubeFollows(t, actions, reports, clock);
  }

  /** The next disciplined report after the first task with actions is where they part: Postgres
      accepts it, Kubernetes refuses it. */
  lemma BackendsPart(t: Template, validImage: string -> bool, actions: seq<WorkflowAction>,
                     reports: seq<Report>, next: Report, clock: nat -> int)
    requires Rendered(t, validImage) && Validator.Flattens(t.tasks, actions)
    requires Disciplined(actions, reports + [next]) && |reports| == 2 * FirstBlock(TemplateLens(t.tasks))
    ensures Row.Replay(actions, reports + [next]).Some?
    ensures KubeReplay(t, reports, clock).Some? && KubeReplay(t, reports + [next], clock).None?
  {
    var all := reports + [next];
    Validator.ValidIsWellNamed(t, validImage, actions);
    RowAfterIsReplay(actions, all);
    DisciplinedPrefix(actions, all, |reports|);
    assert all[..|reports|] == reports;
    CreatedAgrees(t, validImage, actions);
    var st := KubeFollows(t, actions, reports, clock);
    KubeReplayStep(t, reports, next, clock, st);
    KubeTakesNext(t, actions, reports, next, st, clock(|reports|));
  }
}
